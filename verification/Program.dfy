/** The whole program over one database: any command, carried out in place, is a step of the handler machine. */
module Program {
  import opened Basics
  import opened AgentMachine
  import opened Documents
  import Store
  import Handlers
  import opened HandlerRuns
  import opened Repositories
  import opened Services

  class SmartDialer {
    const db: Database
    const agents: AgentRepository
    const allocator: CallAllocator
    const events: EventProcessor
    const recovery: RecoveryWorker
    const settings: Store.Settings

    constructor (db: Database, settings: Store.Settings)
      ensures Valid() && this.db == db && this.settings == settings
    {
      this.db := db;
      this.settings := settings;
      agents := new AgentRepository(db);
      allocator := new CallAllocator(db, settings);
      events := new EventProcessor(db, settings);
      recovery := new RecoveryWorker(db, settings);
    }

    predicate Valid() {
      && agents.db == db
      && allocator.Valid() && allocator.db == db && allocator.settings == settings
      && events.Valid() && events.db == db && events.settings == settings
      && recovery.Valid() && recovery.db == db && recovery.settings == settings
    }

    /** What an agent does at the desk: read the document, then a versioned move; a login also counts as a heartbeat. */
    method Act(id: AgentId, action: Handlers.AgentAction) returns (r: Store.TransitionResult)
      requires Valid()
      modifies db
      ensures (db.State(), r) == Handlers.Act(old(db.State()), id, action)
    {
      if id !in db.agents { return Store.Missed; }
      var read := db.agents[id];
      r := agents.TransitionAgent(id, read.state, Handlers.ActionTarget(action), Self, read.version);
      if action.Login? && r.Moved? { agents.Heartbeat(id); }
    }

    method ReleaseFinishedWrapUps(campaign: CampaignId, order: seq<AgentId>)
      requires Valid()
      modifies db
      ensures db.State() == Handlers.ReleaseFinishedWrapUps(settings, old(db.State()), campaign, order)
    {
      var now := db.Now();
      ghost var t := db.State();
      var read := db.agents;
      var finished := set id | id in Store.FinishedWrapUps(db.State(), now - settings.wrapUp)
                      && read[id].campaign == campaign;
      var found := Pick(finished, order, Handlers.WRAP_UP_SWEEP_LIMIT);
      ghost var done: nat := 0;
      for i := 0 to |found|
        invariant forall x :: x in found ==> x in read
        invariant Handlers.WrapUpSweep(db.State(), found[i..], read, WorkerTimer, done)
                  == Handlers.WrapUpSweep(t, found, read, WorkerTimer, 0)
      {
        assert found[i..][1..] == found[i + 1..];
        var updated := agents.TransitionAgent(found[i], AgentState.WrapUp, AgentState.Available, WorkerTimer,
                                              read[found[i]].version);
        if updated.Moved? { done := done + 1; }
      }
    }

    /**
     * Carries out a command. From a reachable database every allowed command leads to a reachable one, so
     * what holds of all reachable stores holds after any sequence of these calls.
     */
    method Execute(t: Timed)
      requires Valid()
      modifies db
      ensures db.State() == Exec(settings, old(db.State()), t)
      ensures Reachable(settings, old(db.State())) && Allowed(settings, old(db.State()), t) ==>
                Reachable(settings, db.State())
    {
      ghost var before := db.State();
      db.delays := t.delays;
      match t.command {
        case Attempt(campaign, provider, worker, input) =>
          var _ := allocator.AttemptDial(campaign, provider, worker, input);
        case Deliver(e) =>
          var _ := events.ProcessEvent(e);
        case Sweep(input) =>
          var _ := recovery.RunSweeps(input);
        case EndWrapUps(campaign, order) =>
          ReleaseFinishedWrapUps(campaign, order);
        case AgentActs(id, action) =>
          var _ := Act(id, action);
        case Beat(id) =>
          agents.Heartbeat(id);
      }
      if Reachable(settings, before) && Allowed(settings, before, t) {
        ReachableOnward(settings, before, t);
      }
    }
  }
}
