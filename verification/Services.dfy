/**
 * The services and workers as the program has them: loops over candidates and sequences of document
 * updates. Each is proved to do to the stored documents exactly what the handler of the same name does
 * to the store, so everything proved of the handlers holds of them.
 */
module Services {
  import opened Basics
  import opened AgentMachine
  import opened CallMachine
  import opened Documents
  import Store
  import Handlers
  import opened Repositories

  // ---------- reservation ----------

  class ReservationService {
    const db: Database
    const agents: AgentRepository
    const borrowers: BorrowerRepository
    const settings: Store.Settings

    constructor (db: Database, settings: Store.Settings)
      ensures Valid() && this.db == db && this.settings == settings
    {
      this.db := db;
      this.settings := settings;
      agents := new AgentRepository(db);
      borrowers := new BorrowerRepository(db);
    }

    predicate Valid() {
      agents.db == db && borrowers.db == db
    }

    method ClaimAgent(campaign: CampaignId, worker: WorkerId, order: seq<AgentId>) returns (r: Option<(AgentId, Agent)>)
      requires Valid()
      modifies db
      ensures (db.State(), r)
              == Handlers.ClaimAgent(settings, old(db.State()), campaign, worker,
                                     Pick(Store.AvailableAgents(old(db.State()), campaign), order,
                                          Handlers.CLAIM_WINDOW))
    {
      var candidates := Pick(Store.AvailableAgents(db.State(), campaign), order, Handlers.CLAIM_WINDOW);
      for i := 0 to |candidates|
        invariant Handlers.ClaimAgent(settings, db.State(), campaign, worker, candidates[i..])
                  == Handlers.ClaimAgent(settings, old(db.State()), campaign, worker, candidates)
      {
        assert candidates[i..][1..] == candidates[i + 1..];
        var claimed := agents.TryReserveAgent(campaign, candidates[i], worker, settings.ttl);
        if claimed.Some? { return Some((candidates[i], claimed.value)); }
      }
      return None;
    }

    method ClaimBorrower(campaign: CampaignId, worker: WorkerId, order: seq<BorrowerId>)
      returns (r: Option<(BorrowerId, Borrower)>)
      requires Valid()
      modifies db
      ensures (db.State(), r)
              == var t := Store.Tick(old(db.State()));
                 Handlers.ClaimBorrower(settings, t, campaign, worker,
                                        Pick(Store.ClaimableBorrowers(t, campaign), order, Handlers.CLAIM_WINDOW))
    {
      var _ := db.Now();
      ghost var t := db.State();
      var candidates := Pick(Store.ClaimableBorrowers(db.State(), campaign), order, Handlers.CLAIM_WINDOW);
      for i := 0 to |candidates|
        invariant Handlers.ClaimBorrower(settings, db.State(), campaign, worker, candidates[i..])
                  == Handlers.ClaimBorrower(settings, t, campaign, worker, candidates)
      {
        assert candidates[i..][1..] == candidates[i + 1..];
        var claimed := borrowers.TryReserveBorrower(campaign, candidates[i], worker, settings.ttl);
        if claimed.Some? { return Some((candidates[i], claimed.value)); }
      }
      return None;
    }

    method ReservePair(campaign: CampaignId, worker: WorkerId, agentOrder: seq<AgentId>, borrowerOrder: seq<BorrowerId>)
      returns (r: Option<Handlers.Pair>)
      requires Valid()
      modifies db
      ensures (db.State(), r)
              == Handlers.ReservePair(settings, old(db.State()), campaign, worker, agentOrder, borrowerOrder)
    {
      var a := ClaimAgent(campaign, worker, agentOrder);
      if a.None? { return None; }
      var b := ClaimBorrower(campaign, worker, borrowerOrder);
      if b.None? {
        var _ := agents.ReleaseAgent(a.value.0, worker, AgentState.Available, Allocator);
        return None;
      }
      return Some(Handlers.Pair(campaign, worker, a.value.0, a.value.1, b.value.0, b.value.1));
    }

    method ReleasePair(pair: Handlers.Pair, outcome: ReleaseOutcome)
      requires Valid()
      modifies db
      ensures db.State() == Handlers.ReleasePair(settings, old(db.State()), pair, outcome)
    {
      var _ := agents.ReleaseAgent(pair.agentId, pair.worker, AgentState.Available, Allocator);
      var _ := borrowers.ReleaseBorrower(settings, pair.borrowerId, pair.worker, outcome);
    }
  }

  // ---------- dialing ----------

  class CallAllocator {
    const db: Database
    const reservations: ReservationService
    const calls: CallRepository
    const agents: AgentRepository
    const settings: Store.Settings

    constructor (db: Database, settings: Store.Settings)
      ensures Valid() && this.db == db && this.settings == settings
    {
      this.db := db;
      this.settings := settings;
      reservations := new ReservationService(db, settings);
      calls := new CallRepository(db);
      agents := new AgentRepository(db);
    }

    predicate Valid() {
      reservations.Valid() && reservations.db == db && reservations.settings == settings && calls.db == db
      && agents.db == db
    }

    /** Create the call and win the write that makes it INITIATED; false leaves the caller to compensate. */
    method PlaceCall(pair: Handlers.Pair, provider: ProviderId) returns (placed: bool)
      requires Valid()
      modifies db
      ensures (db.State(), placed) == Handlers.PlaceCall(old(db.State()), pair, provider)
    {
      var call := calls.CreateCall(pair.Key(), provider, pair.worker);
      if call.state != CallState.Queued { return false; }
      var _ := calls.TransitionCall(pair.Key(), CallState.Reserved);
      var initiated := calls.TransitionCall(pair.Key(), CallState.Initiated);
      return initiated.Some?;
    }

    method FailDial(pair: Handlers.Pair)
      requires Valid()
      modifies db
      ensures db.State() == Handlers.FailDial(settings, old(db.State()), pair)
    {
      var _ := calls.TransitionCall(pair.Key(), CallState.Failed);
      reservations.ReleasePair(pair, Retry);
    }

    method StartDialing(pair: Handlers.Pair)
      requires Valid()
      modifies db
      ensures db.State() == Handlers.StartDialing(old(db.State()), pair)
    {
      var _ := agents.TransitionAgent(pair.agentId, AgentState.Reserved, AgentState.Dialing, Allocator,
                                      pair.agent.version);
      var _ := agents.BindCall(pair.agentId, pair.worker, pair.Key());
    }

    method FinishDial(pair: Handlers.Pair, reply: Handlers.Reply) returns (dialled: bool)
      requires Valid()
      modifies db
      ensures (db.State(), dialled) == Handlers.FinishDial(settings, old(db.State()), pair, reply)
    {
      if !reply.Accepted? {
        FailDial(pair);
        return false;
      }
      var attached := calls.AttachProviderCallId(pair.Key(), reply.id);
      if attached.None? {
        FailDial(pair);
        return false;
      }
      return true;
    }

    /** `healthy` is the provider's standing at the retry gate, `reply` its answer to the origination. */
    method Dial(pair: Handlers.Pair, provider: ProviderId, healthy: bool, reply: Handlers.Reply) returns (dialled: bool)
      requires Valid()
      modifies db
      ensures (db.State(), dialled) == Handlers.Dial(settings, old(db.State()), pair, provider, healthy, reply)
    {
      if pair.borrower.attemptCount > 0 {
        var now := db.Now();
        if !Handlers.ShouldRetry(settings, pair.borrower, now, healthy) {
          reservations.ReleasePair(pair, Released);
          return false;
        }
      }
      var placed := PlaceCall(pair, provider);
      if !placed {
        reservations.ReleasePair(pair, Released);
        return false;
      }
      StartDialing(pair);
      dialled := FinishDial(pair, reply);
    }

    /** What a dial cancelled at any of its awaits leaves to do. */
    method CompensateCancelledDial(pair: Handlers.Pair)
      requires Valid()
      modifies db
      ensures db.State() == Handlers.CompensateCancelledDial(settings, old(db.State()), pair)
    {
      reservations.ReleasePair(pair, Released);
    }

    method AttemptDial(campaign: CampaignId, provider: ProviderId, worker: WorkerId, input: Handlers.DialInput)
      returns (attempt: Handlers.Attempt)
      requires Valid()
      modifies db
      ensures (db.State(), attempt)
              == Handlers.AttemptDial(settings, old(db.State()), campaign, provider, worker, input)
    {
      var pair := reservations.ReservePair(campaign, worker, input.agentOrder, input.borrowerOrder);
      if pair.None? { return Handlers.ContendedAttempt; }
      var dialled := Dial(pair.value, provider, input.healthy, input.reply);
      return if dialled then Handlers.AllocatedAttempt else Handlers.FailedAttempt;
    }

    /** One attempt per approved call, stopping at the third contention in a row. */
    method Allocate(campaign: CampaignId, provider: ProviderId, worker: WorkerId, inputs: seq<Handlers.DialInput>)
      returns (tally: Handlers.Tally)
      requires Valid()
      modifies db
      ensures (db.State(), tally) == Handlers.Allocate(settings, old(db.State()), campaign, provider, worker, inputs)
    {
      var attempted: nat, placed: nat, failed: nat, contended: nat := 0, 0, 0, 0;
      var contentions: nat := 0;
      ghost var whole := Handlers.Allocate(settings, db.State(), campaign, provider, worker, inputs);
      for i := 0 to |inputs|
        invariant contentions < Handlers.MAX_CONSECUTIVE_CONTENTIONS
        invariant whole == Rest(settings, db.State(), campaign, provider, worker, inputs[i..], contentions,
                                Handlers.Tally(attempted, placed, failed, contended))
      {
        assert inputs[i..][1..] == inputs[i + 1..];
        ghost var before, sofar := db.State(), Handlers.Tally(attempted, placed, failed, contended);
        attempted := attempted + 1;
        var attempt := AttemptDial(campaign, provider, worker, inputs[i]);
        NextAttempt(settings, before, campaign, provider, worker, inputs[i..], contentions, sofar, db.State(), attempt);
        if attempt.ContendedAttempt? {
          contended := contended + 1;
          contentions := contentions + 1;
          if contentions >= Handlers.MAX_CONSECUTIVE_CONTENTIONS { break; }
        } else {
          contentions := 0;
          if attempt.AllocatedAttempt? { placed := placed + 1; } else { failed := failed + 1; }
        }
      }
      return Handlers.Tally(attempted, placed, failed, contended);
    }
  }

  /** The allocator loop from here on. */
  ghost function Rest(
    s: Store.Settings, w: Store.World, campaign: CampaignId, provider: ProviderId, worker: WorkerId,
    inputs: seq<Handlers.DialInput>, contentions: nat, tally: Handlers.Tally
  ): (Store.World, Handlers.Tally)
  {
    Handlers.AllocateFrom(s, w, campaign, provider, worker, inputs, contentions, tally)
  }

  /** What the rest of the loop does, given what its next attempt does. */
  lemma NextAttempt(
    s: Store.Settings, w: Store.World, campaign: CampaignId, provider: ProviderId, worker: WorkerId,
    inputs: seq<Handlers.DialInput>, contentions: nat, tally: Handlers.Tally, w1: Store.World, a: Handlers.Attempt
  )
    requires inputs != [] && (w1, a) == Handlers.AttemptDial(s, w, campaign, provider, worker, inputs[0])
    ensures var run := if a.ContendedAttempt? then contentions + 1 else 0;
            Handlers.AllocateFrom(s, w, campaign, provider, worker, inputs, contentions, tally)
            == if run >= Handlers.MAX_CONSECUTIVE_CONTENTIONS then (w1, Handlers.Count(tally, a))
               else Handlers.AllocateFrom(s, w1, campaign, provider, worker, inputs[1..], run, Handlers.Count(tally, a))
  {
  }

  // ---------- provider events ----------

  class EventProcessor {
    const db: Database
    const events: EventRepository
    const calls: CallRepository
    const agents: AgentRepository
    const borrowers: BorrowerRepository
    const settings: Store.Settings

    constructor (db: Database, settings: Store.Settings)
      ensures Valid() && this.db == db && this.settings == settings
    {
      this.db := db;
      this.settings := settings;
      events := new EventRepository(db);
      calls := new CallRepository(db);
      agents := new AgentRepository(db);
      borrowers := new BorrowerRepository(db);
    }

    predicate Valid() {
      events.db == db && calls.db == db && agents.db == db && borrowers.db == db
    }

    method ApplyAgentTransition(key: CallKey, call: Call, target: CallState)
      requires Valid() && Rank(target) >= 2
      modifies db
      ensures db.State() == Handlers.ApplyAgentTransition(old(db.State()), key, call, target)
    {
      var to := AgentStateFor(target);
      if key.agent !in db.agents || db.agents[key.agent].state == to { return; }
      if IsTerminal(target) {
        var _ := agents.ReleaseAgent(key.agent, call.worker, to, AgentMachine.EventProcessor);
        return;
      }
      var read := db.agents[key.agent];
      var _ := agents.TransitionAgent(key.agent, read.state, to, AgentMachine.EventProcessor, read.version);
    }

    method ReleaseBorrower(key: CallKey, call: Call, target: CallState)
      requires Valid()
      modifies db
      ensures db.State() == Handlers.ReleaseBorrowerAfterEvent(settings, old(db.State()), key, call, target)
    {
      var answered := target == CallState.Completed && call.answeredAt.Some?;
      var _ := borrowers.ReleaseBorrower(settings, key.borrower, call.worker,
                                         Handlers.OutcomeForTerminalCall(answered));
    }

    method ApplyEvent(e: Handlers.Event) returns (status: Handlers.EventStatus)
      requires Valid()
      modifies db
      ensures (db.State(), status) == Handlers.ApplyEvent(settings, old(db.State()), e)
    {
      if e.Ref() !in db.index || db.index[e.Ref()] !in db.calls { return Handlers.InvalidIgnored; }
      var key := db.index[e.Ref()];
      var target := Handlers.EventTarget(e.kind);
      if target.None? { return Handlers.InvalidIgnored; }
      var applicability := ShouldApplyEvent(db.calls[key].state, target.value);
      if applicability == IgnoreInvalid { return Handlers.InvalidIgnored; }
      if applicability != Apply { return Handlers.StaleIgnored; }
      var updated := calls.TransitionCall(key, target.value);
      if updated.None? { return Handlers.StaleIgnored; }
      ApplyAgentTransition(key, updated.value, target.value);
      if IsTerminal(target.value) { ReleaseBorrower(key, updated.value, target.value); }
      return Handlers.Processed;
    }

    method ProcessEvent(e: Handlers.Event) returns (status: Handlers.EventStatus)
      requires Valid()
      modifies db
      ensures (db.State(), status) == Handlers.ProcessEvent(settings, old(db.State()), e)
    {
      var recorded := events.RecordEvent(e.id);
      if !recorded { return Handlers.DuplicateIgnored; }
      status := ApplyEvent(e);
    }
  }

  // ---------- recovery ----------

  class RecoveryWorker {
    const db: Database
    const calls: CallRepository
    const agents: AgentRepository
    const borrowers: BorrowerRepository
    const settings: Store.Settings

    constructor (db: Database, settings: Store.Settings)
      ensures Valid() && this.db == db && this.settings == settings
    {
      this.db := db;
      this.settings := settings;
      calls := new CallRepository(db);
      agents := new AgentRepository(db);
      borrowers := new BorrowerRepository(db);
    }

    predicate Valid() {
      calls.db == db && agents.db == db && borrowers.db == db
    }

    method ReleaseCallBorrower(key: CallKey, call: Call)
      requires Valid()
      modifies db
      ensures db.State() == Handlers.ReleaseCallBorrower(settings, old(db.State()), key, call)
    {
      var outcome := Handlers.OutcomeForTerminalCall(false);
      var _ := borrowers.ReleaseBorrower(settings, key.borrower, call.worker, outcome);
    }

    method CancelBoundCall(read: Agent)
      requires Valid()
      modifies db
      ensures db.State() == Handlers.CancelBoundCall(settings, old(db.State()), read)
    {
      if read.currentCall.None? { return; }
      var key := read.currentCall.value;
      if key !in db.calls || db.calls[key].terminal { return; }
      var cancelled := calls.TransitionCall(key, CallState.Cancelled);
      if cancelled.Some? { ReleaseCallBorrower(key, cancelled.value); }
    }

    method ReleaseParties(key: CallKey, call: Call)
      requires Valid()
      modifies db
      ensures db.State() == Handlers.ReleaseParties(settings, old(db.State()), key, call)
    {
      var _ := agents.ReleaseAgent(key.agent, call.worker, AgentState.Available, Recovery);
      ReleaseCallBorrower(key, call);
    }

    method SweepExpiredAgentLeases(now: Time, input: Handlers.SweepInput) returns (recovered: nat)
      requires Valid()
      modifies db
      ensures (db.State(), recovered) == Handlers.SweepExpiredAgents(settings, old(db.State()), now, input)
    {
      var read := db.agents;
      var found := Pick(Store.ExpiredAgents(db.State(), now), input.expired, settings.sweepLimit);
      recovered := 0;
      for i := 0 to |found|
        invariant forall x :: x in found ==> x in read
        invariant Handlers.AgentSweep(settings, db.State(), found[i..], read, now, recovered)
                  == Handlers.AgentSweep(settings, old(db.State()), found, read, now, 0)
      {
        assert found[i..][1..] == found[i + 1..];
        CancelBoundCall(read[found[i]]);
        var released := agents.ReleaseExpiredLease(found[i], read[found[i]], now);
        if released.Some? { recovered := recovered + 1; }
      }
    }

    method SweepExpiredBorrowerLeases(now: Time, input: Handlers.SweepInput) returns (reclaimed: nat)
      requires Valid()
      modifies db
      ensures (db.State(), reclaimed) == Handlers.SweepExpiredBorrowers(settings, old(db.State()), now, input)
    {
      var read := db.borrowers;
      var found := Pick(Store.ExpiredBorrowers(db.State(), now), input.borrowers, settings.sweepLimit);
      reclaimed := 0;
      for i := 0 to |found|
        invariant forall x :: x in found ==> x in read
        invariant Handlers.BorrowerSweep(db.State(), found[i..], read, now, reclaimed)
                  == Handlers.BorrowerSweep(old(db.State()), found, read, now, 0)
      {
        assert found[i..][1..] == found[i + 1..];
        var r := borrowers.ReclaimLease(found[i], read[found[i]], now);
        if r.Some? { reclaimed := reclaimed + 1; }
      }
    }

    method SweepOrphanedCalls(now: Time, input: Handlers.SweepInput) returns (recovered: nat)
      requires Valid()
      modifies db
      ensures (db.State(), recovered) == Handlers.SweepStaleCalls(settings, old(db.State()), now, input)
    {
      var read := db.calls;
      var found := Pick(Store.StaleCalls(db.State(), now - settings.staleTimeout), input.calls, settings.sweepLimit);
      recovered := 0;
      for i := 0 to |found|
        invariant forall x :: x in found ==> x in read
        invariant Handlers.CallSweep(settings, db.State(), found[i..], read, input.reports, recovered)
                  == Handlers.CallSweep(settings, old(db.State()), found, read, input.reports, 0)
      {
        assert found[i..][1..] == found[i + 1..];
        var to := Handlers.Reconcile(read[found[i]], found[i], input.reports);
        var finished := calls.TransitionCall(found[i], to);
        if finished.None? { continue; }
        recovered := recovered + 1;
        ReleaseParties(found[i], finished.value);
      }
    }

    method SweepHeartbeatTimeouts(now: Time, input: Handlers.SweepInput) returns (loggedOut: nat)
      requires Valid()
      modifies db
      ensures (db.State(), loggedOut) == Handlers.SweepSilentAgents(settings, old(db.State()), now, input)
    {
      var read := db.agents;
      var found := Pick(Store.SilentAgents(db.State(), now - settings.heartbeatTimeout), input.silent,
                        settings.sweepLimit);
      loggedOut := 0;
      for i := 0 to |found|
        invariant forall x :: x in found ==> x in read
        invariant Handlers.HeartbeatSweep(settings, db.State(), found[i..], read, loggedOut)
                  == Handlers.HeartbeatSweep(settings, old(db.State()), found, read, 0)
      {
        assert found[i..][1..] == found[i + 1..];
        var a := read[found[i]];
        CancelBoundCall(a);
        var updated := agents.TransitionAgent(found[i], a.state, AgentState.Offline, Recovery, a.version);
        if updated.Moved? { loggedOut := loggedOut + 1; }
      }
    }

    method SweepStuckWrapUps(now: Time, input: Handlers.SweepInput) returns (released: nat)
      requires Valid()
      modifies db
      ensures (db.State(), released) == Handlers.SweepStuckWrapUps(settings, old(db.State()), now, input)
    {
      var read := db.agents;
      var cutoff := now - Handlers.StuckWrapUpAge(settings);
      var found := Pick(Store.FinishedWrapUps(db.State(), cutoff), input.wrapUps, settings.sweepLimit);
      released := 0;
      for i := 0 to |found|
        invariant forall x :: x in found ==> x in read
        invariant Handlers.WrapUpSweep(db.State(), found[i..], read, Recovery, released)
                  == Handlers.WrapUpSweep(old(db.State()), found, read, Recovery, 0)
      {
        assert found[i..][1..] == found[i + 1..];
        var updated := agents.TransitionAgent(found[i], AgentState.WrapUp, AgentState.Available, Recovery,
                                              read[found[i]].version);
        if updated.Moved? { released := released + 1; }
      }
    }

    /** All five sweeps in order, dated by one reading of the clock. */
    method RunSweeps(input: Handlers.SweepInput) returns (counts: Handlers.Counts)
      requires Valid()
      modifies db
      ensures (db.State(), counts) == Handlers.RunSweeps(settings, old(db.State()), input)
    {
      var now := db.Now();
      var expiredAgents := SweepExpiredAgentLeases(now, input);
      var expiredBorrowers := SweepExpiredBorrowerLeases(now, input);
      var orphans := SweepOrphanedCalls(now, input);
      var silent := SweepHeartbeatTimeouts(now, input);
      var stuck := SweepStuckWrapUps(now, input);
      return Handlers.Counts(expiredAgents, expiredBorrowers, orphans, silent, stuck);
    }
  }
}
