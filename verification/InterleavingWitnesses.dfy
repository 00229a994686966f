/** Concrete interleavings, from a fresh database, in which something goes wrong that no handler run shows. */
module InterleavingWitnesses {
  import opened Basics
  import opened AgentMachine
  import opened CallMachine
  import opened Documents
  import opened Store
  import opened Effects
  import opened Handlers
  import opened Interleavings
  import opened TimeAccounting

  function Unread(agents: map<AgentId, Agent>, borrowers: map<BorrowerId, Borrower>): Fine {
    Fine(World(agents, borrowers, map[], map[], {}, 0, []), {}, {}, {}, {}, [], map[])
  }

  lemma FreshIsReached(s: Settings, f: Fine)
    requires Fresh(s, f)
    ensures Reached(s, f)
  {
    assert Possible(s, f, []) && After(s, f, []) == f;
  }

  lemma Replay(s: Settings, f: Fine, step: Step) returns (g: Fine)
    requires Reached(s, f) && CanTake(s, f, step)
    ensures g == Next(s, f, step) && Reached(s, g)
  {
    g := Next(s, f, step);
    ReachedNext(s, f, step);
  }

  /** What one agent, or one borrower, is after a step, and when. */
  predicate AgentIs(f: Fine, id: AgentId, a: Agent, now: Time) {
    id in f.w.agents && f.w.agents[id] == a && f.w.now == now
  }

  predicate BorrowerIs(f: Fine, id: BorrowerId, b: Borrower, now: Time) {
    id in f.w.borrowers && f.w.borrowers[id] == b && f.w.now == now
  }

  lemma ReadsAgent(s: Settings, f: Fine, id: AgentId, a: Agent) returns (g: Fine)
    requires Reached(s, f) && AgentIs(f, id, a, f.w.now)
    ensures Reached(s, g) && AgentIs(g, id, a, f.w.now) && (id, a) in g.agentsRead
  {
    g := Replay(s, f, Step(0, 0, ReadAgent(id)));
  }

  /** What a move of an agent as it was just read leaves stored. */
  lemma MoveIsStored(s: Settings, f: Fine, elapsed: nat, id: AgentId, a: Agent, to: AgentState, actor: Actor)
    requires AgentIs(f, id, a, f.w.now) && Authorised(a.state, to, actor)
    ensures var now := f.w.now + elapsed;
            Next(s, f, Step(elapsed, 0, MoveAgentTo(id, a, to, actor))).w
            == f.w.(agents := f.w.agents[id := MoveAgent(CloseInterval(a, now), to, now)], now := now, delays := [])
  {
    WonTransitionAgent(Dated(f, f.w.now + elapsed).w, id, to, actor);
  }

  /** An authorised move of an agent as it was just read. */
  lemma MovesAgent(s: Settings, f: Fine, elapsed: nat, id: AgentId, a: Agent, to: AgentState, actor: Actor)
    returns (g: Fine)
    requires Reached(s, f) && AgentIs(f, id, a, f.w.now) && (id, a) in f.agentsRead
    requires Authorised(a.state, to, actor) && to != AgentState.Reserved && to != AgentState.WrapUp
    ensures Reached(s, g)
    ensures AgentIs(g, id, MoveAgent(CloseInterval(a, f.w.now + elapsed), to, f.w.now + elapsed), f.w.now + elapsed)
  {
    MoveIsStored(s, f, elapsed, id, a, to, actor);
    g := Replay(s, f, Step(elapsed, 0, MoveAgentTo(id, a, to, actor)));
  }

  function Claimed(a: Agent, worker: WorkerId, ttl: Time, now: Time): Agent {
    MoveAgent(a, AgentState.Reserved, now).(lease := Some(NewLease(worker, ttl, now)))
  }

  const NEWCOMER := Agent(0, AgentState.Offline, 0, None, None, None, 0, 0, 0, 0, 0, 0)

  function Held(b: Borrower, worker: WorkerId, ttl: Time, now: Time): Borrower {
    b.(status := BorrowerStatus.Reserved, lease := Some(NewLease(worker, ttl, now)), version := b.version + 1)
  }

  lemma HoldsBorrower(s: Settings, f: Fine, elapsed: nat, id: BorrowerId, b: Borrower, worker: WorkerId)
    returns (g: Fine)
    requires Reached(s, f) && BorrowerIs(f, id, b, f.w.now) && Claimable(b, b.campaign, f.w.now + elapsed)
    ensures Reached(s, g) && g.firstAttempt == f.firstAttempt
    ensures BorrowerIs(g, id, Held(b, worker, s.ttl, f.w.now + elapsed), f.w.now + elapsed)
    ensures (id, Held(b, worker, s.ttl, f.w.now + elapsed)) in g.borrowersRead
  {
    g := Replay(s, f, Step(elapsed, 0, Hold(b.campaign, id, worker)));
  }

  lemma EndIsStored(s: Settings, f: Fine, lag: nat, id: BorrowerId, b: Borrower, worker: WorkerId)
    requires BorrowerIs(f, id, b, f.w.now) && b.status == BorrowerStatus.Reserved && HeldBy(b.lease, worker)
    ensures var g := Next(s, f, Step(0, lag, LetBorrowerGo(id, worker, Retry)));
            && BorrowerIs(g, id, AfterRetry(b, s.maxAttempts, s.backoffBase, f.w.now - lag), f.w.now)
            && g.firstAttempt == if b.attemptCount == 0 then f.firstAttempt[id := f.w.now - lag] else f.firstAttempt
  {
    WonReleaseBorrower(s, Dated(f, f.w.now - lag).w, id, worker, Retry);
  }

  /** The hold is ended for another try, by a write whose reading of the clock is `lag` old. */
  lemma EndsHold(s: Settings, f: Fine, lag: nat, id: BorrowerId, b: Borrower, worker: WorkerId) returns (g: Fine)
    requires Reached(s, f) && BorrowerIs(f, id, b, f.w.now)
    requires b.status == BorrowerStatus.Reserved && HeldBy(b.lease, worker)
    ensures Reached(s, g) && BorrowerIs(g, id, AfterRetry(b, s.maxAttempts, s.backoffBase, f.w.now - lag), f.w.now)
    ensures g.firstAttempt == if b.attemptCount == 0 then f.firstAttempt[id := f.w.now - lag] else f.firstAttempt
  {
    EndIsStored(s, f, lag, id, b, worker);
    g := Replay(s, f, Step(0, lag, LetBorrowerGo(id, worker, Retry)));
  }

  const FIRST_TIMER := Borrower(0, BorrowerStatus.Pending, 0, None, 0, None, 0)

  lemma OneAttemptAt0(s: Settings) returns (f: Fine)
    requires s.maxAttempts == 2 && s.backoffBase == 60000
    ensures Reached(s, f) && f.firstAttempt == map[0 := 0]
    ensures BorrowerIs(f, 0, Borrower(0, BorrowerStatus.Pending, 2, None, 1, Some(0), 60000), 0)
  {
    f := Unread(map[], map[0 := FIRST_TIMER]);
    FreshIsReached(s, f);
    f := HoldsBorrower(s, f, 0, 0, FIRST_TIMER, 7);
    f := EndsHold(s, f, 0, 0, Held(FIRST_TIMER, 7, s.ttl, 0), 7);
    assert Backoff(60000, 1) == 60000;
  }

  /**
   * The spread of an exhausted borrower's attempts needs releases dated no earlier than the hold they end:
   * a release that read its clock before the second hold leaves both attempts dated 0.
   */
  lemma LateReleaseHidesTheWait(s: Settings) returns (f: Fine)
    requires s.maxAttempts == 2 && s.backoffBase == 60000
    ensures Reached(s, f) && 0 in f.w.borrowers && 0 in f.firstAttempt
    ensures f.w.borrowers[0].status == BorrowerStatus.Exhausted
            && f.w.borrowers[0].lastAttemptAt == Some(f.firstAttempt[0])
  {
    f := OneAttemptAt0(s);
    var once := f.w.borrowers[0];
    f := HoldsBorrower(s, f, 60000, 0, once, 7);
    f := EndsHold(s, f, 60000, 0, Held(once, 7, s.ttl, 60000), 7);
  }

  // ---------- a dial, step by step, with a sweep beside it ----------

  const KEY := CallKey(0, 0, 0, 1)

  /** A store with one agent, one borrower and at most one call. */
  function Scene(a: Agent, b: Borrower, c: Option<Call>, now: Time): World {
    World(map[0 := a], map[0 := b], if c.Some? then map[KEY := c.value] else map[], map[], {}, now, [])
  }

  lemma SceneOpens(s: Settings) returns (f: Fine)
    requires s.maxAttempts >= 1
    ensures Reached(s, f) && f.w == Scene(NEWCOMER, FIRST_TIMER, None, 0)
  {
    f := Unread(map[0 := NEWCOMER], map[0 := FIRST_TIMER]);
    FreshIsReached(s, f);
  }

  lemma SceneClaims(s: Settings) returns (f: Fine, a: Agent)
    requires s.maxAttempts >= 1
    ensures Reached(s, f) && f.w == Scene(a, FIRST_TIMER, None, 0) && (0, a) in f.agentsRead
    ensures a == NEWCOMER.(state := AgentState.Reserved, version := 2, lease := Some(Lease(7, 0, s.ttl)))
  {
    a := NEWCOMER.(state := AgentState.Available, version := 1);
    f := SceneStarts(s, a);
    f := SceneReserves(s, f, a);
    a := Claimed(a, 7, s.ttl, 0);
  }

  lemma SceneStarts(s: Settings, a: Agent) returns (f: Fine)
    requires s.maxAttempts >= 1 && a == NEWCOMER.(state := AgentState.Available, version := 1)
    ensures Reached(s, f) && f.w == Scene(a, FIRST_TIMER, None, 0)
  {
    f := SceneOpens(s);
    f := SceneIsRead(s, f, NEWCOMER, FIRST_TIMER, None, 0);
    f := SceneLogsIn(s, f, a);
  }

  lemma SceneLogsIn(s: Settings, f: Fine, a: Agent) returns (g: Fine)
    requires Reached(s, f) && f.w == Scene(NEWCOMER, FIRST_TIMER, None, 0) && (0, NEWCOMER) in f.agentsRead
    requires a == NEWCOMER.(state := AgentState.Available, version := 1)
    ensures Reached(s, g) && g.w == Scene(a, FIRST_TIMER, None, 0)
  {
    MoveIsStored(s, f, 0, 0, NEWCOMER, AgentState.Available, Self);
    g := Replay(s, f, Step(0, 0, MoveAgentTo(0, NEWCOMER, AgentState.Available, Self)));
  }

  lemma SceneReserves(s: Settings, f: Fine, a: Agent) returns (g: Fine)
    requires Reached(s, f) && f.w == Scene(a, FIRST_TIMER, None, 0)
    requires a.state == AgentState.Available && a.campaign == 0
    ensures Reached(s, g) && g.w == Scene(Claimed(a, 7, s.ttl, 0), FIRST_TIMER, None, 0)
    ensures (0, Claimed(a, 7, s.ttl, 0)) in g.agentsRead
  {
    g := Replay(s, f, Step(0, 0, Claim(0, 0, 7)));
  }

  lemma SceneHolds(s: Settings, f: Fine, a: Agent) returns (g: Fine, b: Borrower)
    requires Reached(s, f) && f.w == Scene(a, FIRST_TIMER, None, 0) && (0, a) in f.agentsRead
    ensures Reached(s, g) && g.w == Scene(a, b, None, 0) && (0, a) in g.agentsRead
    ensures b == Held(FIRST_TIMER, 7, s.ttl, 0) && (0, b) in g.borrowersRead
  {
    g := Replay(s, f, Step(0, 0, Hold(0, 0, 7)));
    b := Held(FIRST_TIMER, 7, s.ttl, 0);
  }

  lemma SceneCreates(s: Settings, f: Fine, a: Agent, b: Borrower) returns (g: Fine)
    requires Reached(s, f) && f.w == Scene(a, b, None, 0) && (0, a) in f.agentsRead && a.campaign == 0
    requires (0, b) in f.borrowersRead && b.status == BorrowerStatus.Reserved && b.attemptCount == 0
    ensures Reached(s, g) && g.w == Scene(a, b, Some(NewCall(0, 7, 0)), 0) && (0, a) in g.agentsRead
  {
    g := Replay(s, f, Step(0, 0, Create(KEY, 0, 7, b)));
  }

  lemma ScenePromotes(s: Settings, f: Fine, a: Agent, b: Borrower, c: Call, to: CallState) returns (g: Fine, d: Call)
    requires Reached(s, f) && f.w == Scene(a, b, Some(c), 0) && (0, a) in f.agentsRead
    requires (to == CallState.Reserved || to == CallState.Initiated) && !c.terminal && c.rank < Rank(to)
    ensures Reached(s, g) && g.w == Scene(a, b, Some(d), 0) && (0, a) in g.agentsRead
    ensures d.state == to && d.rank == Rank(to) && !d.terminal
  {
    g := Replay(s, f, Step(0, 0, Promote(KEY, to)));
    var w := Dated(f, 0).w;
    assert w.calls[KEY] == c;
    WonTransitionCall(w, KEY, to);
    d := TryTransitionCall(w, KEY, to).1.value;
    assert map[KEY := c][KEY := d] == map[KEY := d];
  }

  lemma SceneDials(s: Settings, f: Fine, elapsed: nat, a: Agent, b: Borrower, c: Call) returns (g: Fine, d: Agent)
    requires Reached(s, f) && f.w == Scene(a, b, Some(c), 0) && (0, a) in f.agentsRead && a.state == AgentState.Reserved
    ensures Reached(s, g) && g.w == Scene(d, b, Some(c), elapsed)
    ensures d == MoveAgent(CloseInterval(a, elapsed), AgentState.Dialing, elapsed)
  {
    MoveIsStored(s, f, elapsed, 0, a, AgentState.Dialing, Allocator);
    g := Replay(s, f, Step(elapsed, 0, MoveAgentTo(0, a, AgentState.Dialing, Allocator)));
    d := MoveAgent(CloseInterval(a, elapsed), AgentState.Dialing, elapsed);
  }

  lemma SceneIsRead(s: Settings, f: Fine, d: Agent, b: Borrower, c: Option<Call>, elapsed: nat) returns (g: Fine)
    requires Reached(s, f) && f.w == Scene(d, b, c, f.w.now)
    ensures Reached(s, g) && g.w == Scene(d, b, c, f.w.now + elapsed) && (0, d) in g.agentsRead
  {
    g := Replay(s, f, Step(elapsed, 0, ReadAgent(0)));
  }

  lemma SceneBinds(s: Settings, f: Fine, d: Agent, b: Borrower, c: Call) returns (g: Fine)
    requires Reached(s, f) && f.w == Scene(d, b, Some(c), f.w.now) && (0, d) in f.agentsRead && HeldBy(d.lease, 7)
    ensures Reached(s, g) && g == Next(s, f, Step(0, 0, Bind(0, 7, KEY))) && (0, d) in g.agentsRead
    ensures g.w == Scene(d.(currentCall := Some(KEY)), b, Some(c), f.w.now)
  {
    g := Replay(s, f, Step(0, 0, Bind(0, 7, KEY)));
  }

  /** A sweep of the given date, begun by now, reclaims the agent as it was read. */
  lemma SceneReclaims(s: Settings, f: Fine, d: Agent, bound: Agent, b: Borrower, c: Call, sweep: Time) returns (g: Fine)
    requires Reached(s, f) && f.w == Scene(bound, b, Some(c), f.w.now) && (0, d) in f.agentsRead
    requires bound == d.(currentCall := bound.currentCall) && AgentLeaseExpired(d, sweep) && sweep <= f.w.now
    ensures Reached(s, g) && g == Next(s, f, Step(0, 0, ReclaimLease(0, d, sweep)))
    ensures g.w == Scene(MoveAgent(bound, AgentState.Available, sweep).(currentCall := None, lease := None), b, Some(c),
                         f.w.now)
  {
    g := Replay(s, f, Step(0, 0, ReclaimLease(0, d, sweep)));
  }

  /** The pair reserved and the call initiated, all at 0. */
  lemma PlacedScene(s: Settings) returns (f: Fine, a: Agent, c: Call)
    requires s.maxAttempts >= 1
    ensures Reached(s, f) && f.w == Scene(a, Held(FIRST_TIMER, 7, s.ttl, 0), Some(c), 0) && (0, a) in f.agentsRead
    ensures a == NEWCOMER.(state := AgentState.Reserved, version := 2, lease := Some(Lease(7, 0, s.ttl)))
    ensures c.state == CallState.Initiated && !c.terminal
  {
    f, a := SceneClaims(s);
    var b;
    f, b := SceneHolds(s, f, a);
    f := SceneCreates(s, f, a, b);
    c := NewCall(0, 7, 0);
    f, c := ScenePromotes(s, f, a, b, c, CallState.Reserved);
    f, c := ScenePromotes(s, f, a, b, c, CallState.Initiated);
  }

  /**
   * Binding a call does not raise the version. A sweep begun once the agent's lease has run out reads the
   * agent dialing and on no call; the call is bound after that, and the reclaim succeeds all the same: the
   * call stays active, served by nobody.
   */
  lemma ReclaimCanMissTheCall(s: Settings) returns (read: Fine, bound: Fine, f: Fine)
    requires s.maxAttempts >= 1
    ensures Reached(s, read) && 0 in read.w.agents && (0, read.w.agents[0]) in read.agentsRead
    ensures var d := read.w.agents[0];
            && d.state == AgentState.Dialing && d.currentCall.None? && AgentLeaseExpired(d, read.w.now)
            && bound == Next(s, read, Step(0, 0, Bind(0, 7, KEY)))
            && f == Next(s, bound, Step(0, 0, ReclaimLease(0, d, read.w.now)))
    ensures 0 in bound.w.agents && bound.w.agents[0].currentCall == Some(KEY)
    ensures Reached(s, f) && KEY in f.w.calls && f.w.calls[KEY].state == CallState.Initiated && 0 in f.w.agents
    ensures f.w.agents[0].state == AgentState.Available && f.w.agents[0].currentCall.None?
  {
    var c, d;
    read, c, d := ReadLateScene(s);
    var b := Held(FIRST_TIMER, 7, s.ttl, 0);
    bound := SceneBinds(s, read, d, b, c);
    assert Authorised(AgentState.Dialing, AgentState.Available, Recovery);
    f := SceneReclaims(s, bound, d, d.(currentCall := Some(KEY)), b, c, read.w.now);
  }

  lemma ReadLateScene(s: Settings) returns (f: Fine, c: Call, d: Agent)
    requires s.maxAttempts >= 1
    ensures Reached(s, f) && f.w == Scene(d, Held(FIRST_TIMER, 7, s.ttl, 0), Some(c), s.ttl + 1)
    ensures (0, d) in f.agentsRead && d.state == AgentState.Dialing && d.lease == Some(Lease(7, 0, s.ttl))
    ensures d.currentCall.None? && c.state == CallState.Initiated && !c.terminal
  {
    var a;
    f, a, c := PlacedScene(s);
    var b := Held(FIRST_TIMER, 7, s.ttl, 0);
    f, d := SceneDials(s, f, 0, a, b, c);
    f := SceneIsRead(s, f, d, b, Some(c), s.ttl + 1);
  }

  /**
   * A sweep begins 1 ms after an agent's lease has run out. The agent goes on its call 3 ms later, is read by
   * the sweep's query then and reclaimed with the date of the sweep: it reports 3 ms more of counted time than
   * it has been there.
   */
  lemma LateReclaimCountsTwice(s: Settings) returns (read: Fine, f: Fine)
    requires s.maxAttempts >= 1
    ensures Reached(s, read) && 0 in read.w.agents && (0, read.w.agents[0]) in read.agentsRead
    ensures var sweep := s.ttl + 1;
            && sweep <= read.w.now && AgentLeaseExpired(read.w.agents[0], sweep)
            && f == Next(s, read, Step(0, 0, ReclaimLease(0, read.w.agents[0], sweep)))
    ensures Reached(s, f) && 0 in f.w.agents
    ensures LiveTotals(f.w.agents[0], f.w.now).counted == f.w.now - f.w.agents[0].createdAt + 3
  {
    var a, c;
    read, a, c := PlacedScene(s);
    var b, d := Held(FIRST_TIMER, 7, s.ttl, 0), a;
    read, d := SceneDials(s, read, s.ttl + 4, a, b, c);
    read := SceneIsRead(s, read, d, b, Some(c), 0);
    assert Authorised(AgentState.Dialing, AgentState.Available, Recovery);
    f := SceneReclaims(s, read, d, d, b, c, s.ttl + 1);
  }

  // ---------- an agent heard from too late ----------

  lemma PingIsStored(s: Settings, f: Fine, elapsed: nat, id: AgentId, a: Agent)
    requires AgentIs(f, id, a, f.w.now)
    ensures AgentIs(Next(s, f, Step(elapsed, 0, Ping(id))), id, a.(lastHeartbeat := Some(f.w.now + elapsed)),
                    f.w.now + elapsed)
    ensures Next(s, f, Step(elapsed, 0, Ping(id))).agentsRead == f.agentsRead
  {
  }

  lemma Pings(s: Settings, f: Fine, elapsed: nat, id: AgentId, a: Agent) returns (g: Fine)
    requires Reached(s, f) && AgentIs(f, id, a, f.w.now)
    ensures Reached(s, g) && g.agentsRead == f.agentsRead
    ensures AgentIs(g, id, a.(lastHeartbeat := Some(f.w.now + elapsed)), f.w.now + elapsed)
  {
    PingIsStored(s, f, elapsed, id, a);
    g := Replay(s, f, Step(elapsed, 0, Ping(id)));
  }

  lemma LogsInAt0(s: Settings) returns (f: Fine, a: Agent)
    requires s.maxAttempts >= 1
    ensures Reached(s, f) && AgentIs(f, 0, a, 0)
    ensures a == NEWCOMER.(state := AgentState.Available, version := 1, lastHeartbeat := Some(0))
  {
    f := Unread(map[0 := NEWCOMER], map[]);
    FreshIsReached(s, f);
    f := ReadsAgent(s, f, 0, NEWCOMER);
    f := MovesAgent(s, f, 0, 0, NEWCOMER, AgentState.Available, Self);
    f := Pings(s, f, 0, 0, f.w.agents[0]);
    a := f.w.agents[0];
  }

  lemma SilentWhenRead(s: Settings) returns (f: Fine, a: Agent)
    requires s.maxAttempts >= 1
    ensures Reached(s, f) && AgentIs(f, 0, a, f.w.now) && (0, a) in f.agentsRead
    ensures HeartbeatExpired(a, f.w.now - s.heartbeatTimeout) && a.state == AgentState.Available
  {
    var wait: nat := Max(0, s.heartbeatTimeout) + 1;
    f, a := LogsInAt0(s);
    f := ReadsAgentLater(s, f, wait, 0, a);
  }

  lemma ReadsAgentLater(s: Settings, f: Fine, elapsed: nat, id: AgentId, a: Agent) returns (g: Fine)
    requires Reached(s, f) && AgentIs(f, id, a, f.w.now)
    ensures Reached(s, g) && AgentIs(g, id, a, f.w.now + elapsed) && (id, a) in g.agentsRead
  {
    g := Replay(s, f, Step(elapsed, 0, ReadAgent(id)));
  }

  /**
   * A sweep reads an agent that has been silent for too long; the agent is heard from, and is logged out all
   * the same at that very moment.
   */
  lemma HeardAgentCanBeLoggedOut(s: Settings) returns (read: Fine, heard: Fine, f: Fine)
    requires s.maxAttempts >= 1
    ensures Reached(s, read) && 0 in read.w.agents && (0, read.w.agents[0]) in read.agentsRead
    ensures HeartbeatExpired(read.w.agents[0], read.w.now - s.heartbeatTimeout)
    ensures heard == Next(s, read, Step(0, 0, Ping(0)))
    ensures f == Next(s, heard, Step(0, 0, MoveAgentTo(0, read.w.agents[0], AgentState.Offline, Recovery)))
    ensures Reached(s, f) && 0 in f.w.agents && f.w.agents[0].state == AgentState.Offline
    ensures f.w.agents[0].lastHeartbeat == Some(f.w.now)
  {
    var a;
    read, a := SilentWhenRead(s);
    PingIsStored(s, read, 0, 0, a);
    heard := Replay(s, read, Step(0, 0, Ping(0)));
    f := LogsOutAsRead(s, heard, a, a.(lastHeartbeat := Some(read.w.now)));
  }

  lemma LogsOutAsRead(s: Settings, f: Fine, read: Agent, a: Agent) returns (g: Fine)
    requires Reached(s, f) && AgentIs(f, 0, a, f.w.now)
    requires (0, read) in f.agentsRead && read.state == AgentState.Available
    requires a == read.(lastHeartbeat := a.lastHeartbeat)
    ensures Reached(s, g) && g == Next(s, f, Step(0, 0, MoveAgentTo(0, read, AgentState.Offline, Recovery)))
    ensures AgentIs(g, 0, MoveAgent(CloseInterval(a, f.w.now), AgentState.Offline, f.w.now), f.w.now)
  {
    assert Authorised(AgentState.Available, AgentState.Offline, Recovery);
    WonTransitionAgent(Dated(f, f.w.now).w, 0, AgentState.Offline, Recovery);
    g := Replay(s, f, Step(0, 0, MoveAgentTo(0, read, AgentState.Offline, Recovery)));
  }
}
