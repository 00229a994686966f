/**
 * The repositories as the program has them: methods that update the stored documents in place. Each is
 * one conditional update, and each is proved to be the step of the same name on the whole store.
 */
module Repositories {
  import opened Basics
  import opened AgentMachine
  import opened CallMachine
  import opened Documents
  import Store

  class Database {
    var agents: map<AgentId, Agent>
    var borrowers: map<BorrowerId, Borrower>
    var calls: map<CallKey, Call>
    var index: map<Store.ProviderRef, CallKey>
    var events: set<Store.EventId>
    var now: Time
    var delays: seq<nat>

    constructor (w: Store.World)
      ensures State() == w
    {
      agents, borrowers, calls, index, events := w.agents, w.borrowers, w.calls, w.index, w.events;
      now, delays := w.now, w.delays;
    }

    function State(): Store.World
      reads this
    {
      Store.World(agents, borrowers, calls, index, events, now, delays)
    }

    /** A reading of the clock. */
    method Now() returns (t: Time)
      modifies `now, `delays
      ensures State() == Store.Tick(old(State())) && t == now
    {
      if delays != [] { now, delays := now + delays[0], delays[1..]; }
      t := now;
    }
  }

  class AgentRepository {
    const db: Database

    constructor (db: Database)
      ensures this.db == db
    {
      this.db := db;
    }

    method TryReserveAgent(campaign: CampaignId, id: AgentId, worker: WorkerId, ttl: Time) returns (r: Option<Agent>)
      modifies db
      ensures (db.State(), r) == Store.TryReserveAgent(old(db.State()), campaign, id, worker, ttl)
    {
      var now := db.Now();
      r := None;
      if id in db.agents && db.agents[id].campaign == campaign && db.agents[id].state == AgentState.Available {
        var a := db.agents[id];
        a := a.(state := AgentState.Reserved, stateChangedAt := now, lease := Some(Lease(worker, now, now + ttl)),
                version := a.version + 1);
        db.agents := db.agents[id := a];
        r := Some(a);
      }
    }

    method ReleaseAgent(id: AgentId, worker: WorkerId, to: AgentState, actor: Actor) returns (r: Option<Agent>)
      modifies db
      ensures (db.State(), r) == Store.TryReleaseAgent(old(db.State()), id, worker, to, actor)
    {
      var sources := AllowedSources(to, actor);
      var now := db.Now();
      r := None;
      if id in db.agents && HeldBy(db.agents[id].lease, worker) && db.agents[id].state in sources {
        var a := CloseInterval(db.agents[id], now);
        a := a.(state := to, stateChangedAt := now, currentCall := None, version := a.version + 1, lease := None);
        db.agents := db.agents[id := a];
        r := Some(a);
      }
    }

    /** Raises, before anything is read, when the actor may not make the move. */
    method TransitionAgent(id: AgentId, from: AgentState, to: AgentState, actor: Actor, version: nat)
      returns (r: Store.TransitionResult)
      modifies db
      ensures (db.State(), r) == Store.TryTransitionAgent(old(db.State()), id, from, to, actor, version)
    {
      if !Authorised(from, to, actor) { return Store.Unauthorised; }
      var now := db.Now();
      r := Store.Missed;
      if id in db.agents && db.agents[id].state == from && db.agents[id].version == version {
        var a := CloseInterval(db.agents[id], now);
        a := a.(state := to, stateChangedAt := now, version := a.version + 1);
        db.agents := db.agents[id := a];
        r := Store.Moved(a);
      }
    }

    method BindCall(id: AgentId, worker: WorkerId, key: CallKey) returns (r: Option<Agent>)
      modifies db
      ensures (db.State(), r) == Store.TryBindCall(old(db.State()), id, worker, key)
    {
      r := None;
      if id in db.agents && HeldBy(db.agents[id].lease, worker) {
        var a := db.agents[id].(currentCall := Some(key));
        db.agents := db.agents[id := a];
        r := Some(a);
      }
    }

    method ReleaseExpiredLease(id: AgentId, read: Agent, now: Time) returns (r: Option<Agent>)
      modifies db
      ensures (db.State(), r) == Store.TryReclaimAgent(old(db.State()), id, read, now)
    {
      r := None;
      if id in db.agents && db.agents[id].state == read.state && db.agents[id].version == read.version
         && db.agents[id].lease.Some? && db.agents[id].lease.value.expiresAt < now {
        var a := db.agents[id];
        a := a.(state := AgentState.Available, stateChangedAt := now, currentCall := None, lease := None,
                version := a.version + 1);
        db.agents := db.agents[id := a];
        r := Some(a);
      }
    }

    method Heartbeat(id: AgentId)
      modifies db
      ensures db.State() == Store.Heartbeat(old(db.State()), id)
    {
      var now := db.Now();
      if id in db.agents {
        db.agents := db.agents[id := db.agents[id].(lastHeartbeat := Some(now))];
      }
    }
  }

  class BorrowerRepository {
    const db: Database

    constructor (db: Database)
      ensures this.db == db
    {
      this.db := db;
    }

    method TryReserveBorrower(campaign: CampaignId, id: BorrowerId, worker: WorkerId, ttl: Time)
      returns (r: Option<Borrower>)
      modifies db
      ensures (db.State(), r) == Store.TryReserveBorrower(old(db.State()), campaign, id, worker, ttl)
    {
      var now := db.Now();
      r := None;
      if id in db.borrowers && db.borrowers[id].campaign == campaign
         && db.borrowers[id].status == BorrowerStatus.Pending && db.borrowers[id].nextEligibleAt <= now {
        var b := db.borrowers[id];
        b := b.(status := BorrowerStatus.Reserved, lease := Some(Lease(worker, now, now + ttl)),
                version := b.version + 1);
        db.borrowers := db.borrowers[id := b];
        r := Some(b);
      }
    }

    method ReleaseBorrower(s: Store.Settings, id: BorrowerId, worker: WorkerId, outcome: ReleaseOutcome)
      returns (r: Option<Borrower>)
      modifies db
      ensures (db.State(), r) == Store.TryReleaseBorrower(s, old(db.State()), id, worker, outcome)
    {
      var now := db.Now();
      r := None;
      if id in db.borrowers && HeldBy(db.borrowers[id].lease, worker) && Releasable(db.borrowers[id].status) {
        var b := db.borrowers[id];
        match outcome {
          case Released =>
            b := b.(status := BorrowerStatus.Pending, lease := None, version := b.version + 1);
          case ContactMade =>
            b := b.(status := BorrowerStatus.Contacted, lastAttemptAt := Some(now), lease := None,
                    version := b.version + 1, attemptCount := b.attemptCount + 1);
          case Retry =>
            b := b.(attemptCount := b.attemptCount + 1, lastAttemptAt := Some(now), version := b.version + 1,
                    lease := None);
            b := b.(status := if b.attemptCount >= s.maxAttempts then BorrowerStatus.Exhausted
                    else BorrowerStatus.Pending,
                    nextEligibleAt := now + Backoff(s.backoffBase, b.attemptCount));
        }
        db.borrowers := db.borrowers[id := b];
        r := Some(b);
      }
    }

    method ReclaimLease(id: BorrowerId, read: Borrower, now: Time) returns (r: Option<Borrower>)
      modifies db
      ensures (db.State(), r) == Store.TryReclaimBorrower(old(db.State()), id, read, now)
    {
      r := None;
      if id in db.borrowers && db.borrowers[id].status == read.status && db.borrowers[id].version == read.version
         && db.borrowers[id].lease.Some? && db.borrowers[id].lease.value.expiresAt < now {
        var b := db.borrowers[id];
        b := b.(status := BorrowerStatus.Pending, nextEligibleAt := now, lease := None, version := b.version + 1);
        db.borrowers := db.borrowers[id := b];
        r := Some(b);
      }
    }
  }

  class CallRepository {
    const db: Database

    constructor (db: Database)
      ensures this.db == db
    {
      this.db := db;
    }

    method CreateCall(key: CallKey, provider: ProviderId, worker: WorkerId) returns (c: Call)
      modifies db
      ensures (db.State(), c) == Store.CreateCall(old(db.State()), key, provider, worker)
    {
      var now := db.Now();
      if key in db.calls { return db.calls[key]; }
      c := NewCall(provider, worker, now);
      db.calls := db.calls[key := c];
    }

    method TransitionCall(key: CallKey, to: CallState) returns (r: Option<Call>)
      modifies db
      ensures (db.State(), r) == Store.TryTransitionCall(old(db.State()), key, to)
    {
      var now := db.Now();
      r := None;
      if key in db.calls && !db.calls[key].terminal && db.calls[key].rank < Rank(to) {
        var c := db.calls[key].(state := to, rank := Rank(to), terminal := IsTerminal(to), updatedAt := now);
        match to {
          case Initiated => c := c.(initiatedAt := Some(now));
          case Ringing => c := c.(ringingAt := Some(now));
          case Answered => c := c.(answeredAt := Some(now));
          case Connected => c := c.(connectedAt := Some(now));
          case _ =>
        }
        if IsTerminal(to) { c := c.(endedAt := Some(now)); }
        db.calls := db.calls[key := c];
        r := Some(c);
      }
    }

    method AttachProviderCallId(key: CallKey, id: ProviderCallId) returns (r: Option<Call>)
      modifies db
      ensures (db.State(), r) == Store.TryAttach(old(db.State()), key, id)
    {
      var now := db.Now();
      r := None;
      if key in db.calls && db.calls[key].providerCallId.None? {
        var ref := Store.ProviderRef(db.calls[key].provider, id);
        if ref !in db.index {
          var c := db.calls[key].(providerCallId := Some(id), updatedAt := now);
          db.calls := db.calls[key := c];
          db.index := db.index[ref := key];
          r := Some(c);
        }
      }
    }
  }

  class EventRepository {
    const db: Database

    constructor (db: Database)
      ensures this.db == db
    {
      this.db := db;
    }

    /** The unique insert: false for an event already on record. */
    method RecordEvent(id: Store.EventId) returns (recorded: bool)
      modifies db
      ensures (db.State(), recorded) == Store.RecordEvent(old(db.State()), id)
    {
      recorded := id !in db.events;
      if recorded { db.events := db.events + {id}; }
    }
  }
}
