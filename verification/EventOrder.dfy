/**
 * Sequences of provider events: duplicates change nothing, and the fate of a call, its agent and its
 * borrower depends only on a small summary of the events that reached the call.
 */
module EventOrder {
  import opened Basics
  import opened AgentMachine
  import opened CallMachine
  import opened Documents
  import opened Store
  import opened Effects
  import opened Handlers
  import opened Linking
  import opened EventsKeepLinks

  function ProcessAll(s: Settings, w: World, es: seq<Event>): World
    decreases |es|
  {
    if es == [] then w else ProcessAll(s, ProcessEvent(s, w, es[0]).0, es[1..])
  }

  // ---------- duplicates ----------

  function FirstOccurrences(es: seq<Event>, seen: set<EventId>): seq<Event>
    decreases |es|
  {
    if es == [] then []
    else if es[0].id in seen then FirstOccurrences(es[1..], seen)
    else [es[0]] + FirstOccurrences(es[1..], seen + {es[0].id})
  }

  predicate SameFrame(w: World, w': World) {
    w'.events == w.events && w'.index == w.index
  }

  lemma AgentPartFrame(w: World, key: CallKey, call: Call, target: CallState)
    requires Rank(target) >= 2
    ensures SameFrame(w, ApplyAgentTransition(w, key, call, target))
  {
  }

  lemma BorrowerPartFrame(s: Settings, w: World, key: CallKey, call: Call, target: CallState)
    ensures SameFrame(w, ReleaseBorrowerAfterEvent(s, w, key, call, target))
  {
  }

  lemma ApplyEventFrame(s: Settings, w: World, e: Event)
    ensures SameFrame(w, ApplyEvent(s, w, e).0)
  {
    if e.Ref() in w.index && EventTarget(e.kind).Some? {
      var key, target := w.index[e.Ref()], EventTarget(e.kind).value;
      var (w1, updated) := TryTransitionCall(w, key, target);
      if updated.Some? {
        AgentPartFrame(w1, key, updated.value, target);
        BorrowerPartFrame(s, ApplyAgentTransition(w1, key, updated.value, target), key, updated.value, target);
      }
    }
  }

  /** Only the set of noted ids grows; the provider index stays. */
  lemma EventFrame(s: Settings, w: World, e: Event)
    ensures var w' := ProcessEvent(s, w, e).0;
            w'.events == w.events + {e.id} && w'.index == w.index
  {
    ApplyEventFrame(s, RecordEvent(w, e.id).0, e);
  }

  /** Processing a stream, with any repeats, equals processing the first occurrence of each event id. */
  lemma {:induction false} DuplicatesChangeNothing(s: Settings, w: World, es: seq<Event>)
    ensures ProcessAll(s, w, es) == ProcessAll(s, w, FirstOccurrences(es, w.events))
    decreases |es|
  {
    if es == [] {
    } else {
      var w1 := ProcessEvent(s, w, es[0]).0;
      EventFrame(s, w, es[0]);
      DuplicatesChangeNothing(s, w1, es[1..]);
      if es[0].id in w.events {
        assert w1 == w;
      } else {
        var rest := FirstOccurrences(es[1..], w.events + {es[0].id});
        assert ([es[0]] + rest)[1..] == rest;
      }
    }
  }

  // ---------- one call ----------

  /** The states that fresh events ask of one call, in the order they arrive. */
  function TargetsOf(w: World, es: seq<Event>, seen: set<EventId>, key: CallKey): seq<CallState>
    decreases |es|
  {
    if es == [] then []
    else
      var rest := TargetsOf(w, es[1..], seen + {es[0].id}, key);
      if es[0].id !in seen && Concerns(w, es[0], key) then [EventTarget(es[0].kind).value] + rest else rest
  }

  predicate Concerns(w: World, e: Event, key: CallKey) {
    e.Ref() in w.index && w.index[e.Ref()] == key && EventTarget(e.kind).Some?
  }

  /** A call with its agent, as far as events go: `answered` is whether an answer time was recorded. */
  datatype Progress = Progress(call: CallState, agent: AgentState, answered: bool)

  function Advance(p: Progress, target: CallState): Progress
    requires Rank(target) >= 3
  {
    if IsTerminal(p.call) || Rank(target) <= Rank(p.call) then p
    else
      Progress(
        target,
        if target == CallState.Completed && p.agent == AgentState.Dialing then p.agent else AgentStateFor(target),
        p.answered || target == CallState.Answered)
  }

  function AdvanceAll(p: Progress, targets: seq<CallState>): Progress
    requires forall t :: t in targets ==> Rank(t) >= 3
    decreases |targets|
  {
    if targets == [] then p else AdvanceAll(Advance(p, targets[0]), targets[1..])
  }

  lemma {:induction false} TargetsAreEventStates(w: World, es: seq<Event>, seen: set<EventId>, key: CallKey)
    ensures forall t :: t in TargetsOf(w, es, seen, key) ==> Rank(t) >= 3
    decreases |es|
  {
    if es == [] {
    } else {
      TargetsAreEventStates(w, es[1..], seen + {es[0].id}, key);
    }
  }

  /** The stored documents are at this point of progress. */
  ghost predicate At(w: World, key: CallKey, p: Progress) {
    && key in w.calls && key.agent in w.agents && key.borrower in w.borrowers
    && w.calls[key].state == p.call
    && (w.calls[key].answeredAt.Some? <==> p.answered)
    && w.agents[key.agent].state == p.agent
    && (IsTerminal(p.call) ==>
          (w.borrowers[key.borrower].status == BorrowerStatus.Contacted
           <==> p.call == CallState.Completed && p.answered))
  }

  lemma OwnEventAdvances(
    s: Settings, w: World, w': World, key: CallKey, target: CallState, a: Agent, b: Borrower, c: Call, p: Progress
  )
    requires Rank(target) >= 3 && Rank(p.call) < Rank(target) && !IsTerminal(p.call)
    requires At(w, key, p) && Linked(w, key)
    requires EventApplied(s, w, w', key, target, a, b, c)
    ensures At(w', key, Advance(p, target))
  {
  }

  lemma OtherEventLeaves(
    s: Settings, w: World, w': World, key: CallKey, k: CallKey, target: CallState, a: Agent, b: Borrower, c: Call,
    p: Progress
  )
    requires Rank(target) >= 3 && k.agent != key.agent && k.borrower != key.borrower
    requires At(w, key, p) && EventApplied(s, w, w', k, target, a, b, c)
    ensures At(w', key, p)
  {
  }

  lemma AppliedStaysAlone(
    s: Settings, w: World, w': World, key: CallKey, k: CallKey, target: CallState, a: Agent, b: Borrower, c: Call
  )
    requires Rank(target) >= 3 && Active(w, k) && EventApplied(s, w, w', k, target, a, b, c)
    requires Alone(w, key.agent, key.borrower, key)
    ensures Alone(w', key.agent, key.borrower, key)
  {
  }

  function Seen(w: World, e: Event, key: CallKey, p: Progress): Progress {
    if e.id !in w.events && Concerns(w, e, key) then Advance(p, EventTarget(e.kind).value) else p
  }

  /** One event, as seen from one call: its own fresh events advance it, all others leave it. */
  lemma EventSeenFrom(s: Settings, w: World, w': World, e: Event, key: CallKey, p: Progress)
    requires Inv(s, w) && Alone(w, key.agent, key.borrower, key) && At(w, key, p)
    requires w' == ProcessEvent(s, w, e).0
    ensures Alone(w', key.agent, key.borrower, key)
    ensures At(w', key, Seen(w, e, key, p))
  {
    var a, b, c := EventOutcome(s, w, e);
    var w1 := Noted(w, e);
    assert CallOk(w, key);
    if Moves(w, e) {
      var k := w.index[e.Ref()];
      var target := EventTarget(e.kind).value;
      assert Linked(w, k) && Linked(w1, k);
      AppliedStaysAlone(s, w1, w', key, k, target, a, b, c);
      if k == key {
        OwnEventAdvances(s, w1, w', key, target, a, b, c, p);
      } else {
        OtherEventLeaves(s, w1, w', key, k, target, a, b, c, p);
      }
    }
  }

  /**
   * After any stream of events, whatever the repeats, losses and order, the call, its agent and its
   * borrower are where the summary of the events that concern the call says.
   */
  lemma {:induction false} EventsAdvance(s: Settings, w: World, es: seq<Event>, key: CallKey, p: Progress)
    requires Inv(s, w) && Alone(w, key.agent, key.borrower, key) && At(w, key, p)
    ensures forall t :: t in TargetsOf(w, es, w.events, key) ==> Rank(t) >= 3
    ensures At(ProcessAll(s, w, es), key, AdvanceAll(p, TargetsOf(w, es, w.events, key)))
    decreases |es|
  {
    TargetsAreEventStates(w, es, w.events, key);
    if es == [] {
    } else {
      var e := es[0];
      var w1 := ProcessEvent(s, w, e).0;
      EventKeepsInv(s, w, e);
      EventFrame(s, w, e);
      EventSeenFrom(s, w, w1, e, key, p);
      SameIndexSameTargets(w, w1, es[1..], w1.events, key);
      if e.id !in w.events && Concerns(w, e, key) {
        EventsAdvance(s, w1, es[1..], key, Advance(p, EventTarget(e.kind).value));
        assert TargetsOf(w, es, w.events, key)[1..] == TargetsOf(w, es[1..], w1.events, key);
      } else {
        EventsAdvance(s, w1, es[1..], key, p);
      }
    }
  }

  lemma {:induction false} SameIndexSameTargets(w: World, w': World, es: seq<Event>, seen: set<EventId>, key: CallKey)
    requires w'.index == w.index
    ensures TargetsOf(w', es, seen, key) == TargetsOf(w, es, seen, key)
    decreases |es|
  {
    if es == [] {
    } else {
      SameIndexSameTargets(w, w', es[1..], seen + {es[0].id}, key);
    }
  }

  // ---------- what the summary says ----------

  /** Where the first terminal state stands, or the length if there is none. */
  function FirstTerminal(ts: seq<CallState>): (i: nat)
    ensures i <= |ts|
    ensures i < |ts| ==> IsTerminal(ts[i])
    ensures forall j :: 0 <= j < i ==> !IsTerminal(ts[j])
  {
    if ts == [] || IsTerminal(ts[0]) then 0 else 1 + FirstTerminal(ts[1..])
  }

  /** The first terminal event decides; with none, the highest-ranked state reached stands. */
  lemma {:induction false} FinalCallState(p: Progress, ts: seq<CallState>)
    requires forall t :: t in ts ==> Rank(t) >= 3
    requires !IsTerminal(p.call)
    ensures var end := AdvanceAll(p, ts).call;
            var i := FirstTerminal(ts);
            if i < |ts| then end == ts[i]
            else !IsTerminal(end) && (end == p.call || end in ts) && Rank(end) >= Rank(p.call)
                 && forall t :: t in ts ==> Rank(t) <= Rank(end)
    decreases |ts|
  {
    if ts == [] {
    } else {
      var p1 := Advance(p, ts[0]);
      assert ts == [ts[0]] + ts[1..];
      if IsTerminal(ts[0]) {
        TerminalAbsorbs(p1, ts[1..]);
      } else {
        FinalCallState(p1, ts[1..]);
        assert FirstTerminal(ts) == 1 + FirstTerminal(ts[1..]);
      }
    }
  }

  lemma {:induction false} TerminalAbsorbs(p: Progress, ts: seq<CallState>)
    requires forall t :: t in ts ==> Rank(t) >= 3
    requires IsTerminal(p.call)
    ensures AdvanceAll(p, ts) == p
    decreases |ts|
  {
    if ts == [] {
    } else {
      TerminalAbsorbs(p, ts[1..]);
    }
  }

  /** Events that differ only in order leave the call in the same state, if at most one terminal state is among them. */
  lemma OrderDoesNotMatterToCall(p: Progress, ts: seq<CallState>, us: seq<CallState>)
    requires forall t :: t in ts ==> Rank(t) >= 3
    requires multiset(ts) == multiset(us)
    requires !IsTerminal(p.call)
    requires forall t, u :: t in ts && u in ts && IsTerminal(t) && IsTerminal(u) ==> t == u
    ensures forall t :: t in us ==> Rank(t) >= 3
    ensures AdvanceAll(p, ts).call == AdvanceAll(p, us).call
  {
    forall t ensures t in ts <==> t in us {
      assert t in multiset(ts) <==> t in multiset(us);
    }
    FinalCallState(p, ts);
    FinalCallState(p, us);
    SameRankSameState(AdvanceAll(p, ts).call, AdvanceAll(p, us).call);
  }

  lemma SameRankSameState(s: CallState, t: CallState)
    ensures Rank(s) == Rank(t) && !IsTerminal(s) && !IsTerminal(t) ==> s == t
  {
  }

  predicate HumanOnLine(t: CallState) {
    t == CallState.Answered || t == CallState.Connected
  }

  /**
   * Starting from a call that rings or is about to, its agent ends in wrap-up exactly when the first
   * terminal event is COMPLETED and an ANSWERED or CONNECTED event came before it.
   */
  lemma {:induction false} WrapUpExactlyAfterTalk(p: Progress, ts: seq<CallState>)
    requires forall t :: t in ts ==> Rank(t) >= 3
    requires p.agent == AgentState.Dialing || p.agent == AgentState.Connected
    requires !IsTerminal(p.call) && Rank(p.call) >= 2 && p.agent == AgentStateFor(p.call)
    ensures var i := FirstTerminal(ts);
            AdvanceAll(p, ts).agent == AgentState.WrapUp
            <==> i < |ts| && ts[i] == CallState.Completed
                 && (HumanOnLine(p.call) || exists j :: 0 <= j < i && HumanOnLine(ts[j]))
    decreases |ts|
  {
    if ts == [] {
    } else {
      var p1 := Advance(p, ts[0]);
      if IsTerminal(ts[0]) {
        TerminalAbsorbs(p1, ts[1..]);
      } else {
        WrapUpExactlyAfterTalk(p1, ts[1..]);
        var i, i1 := FirstTerminal(ts), FirstTerminal(ts[1..]);
        assert i == 1 + i1;
        assert forall j :: 0 <= j < i1 ==> ts[1..][j] == ts[j + 1];
        if j :| 0 <= j < i && HumanOnLine(ts[j]) {
          if j > 0 { assert HumanOnLine(ts[1..][j - 1]); }
        }
      }
    }
  }

  /**
   * An answer time is recorded exactly when an ANSWERED event comes before every CONNECTED and every
   * terminal event; so a completed conversation counts as a contact only then.
   */
  lemma {:induction false} AnswerRecordedExactly(p: Progress, ts: seq<CallState>)
    requires forall t :: t in ts ==> Rank(t) >= 3
    requires !p.answered
    ensures AdvanceAll(p, ts).answered <==> Rank(p.call) < 4 && AnsweredFirst(ts)
    decreases |ts|
  {
    if ts == [] {
    } else {
      var p1 := Advance(p, ts[0]);
      AnsweredFirstByHead(ts);
      if p1.answered {
        AnsweredStays(p1, ts[1..]);
      } else {
        AnswerRecordedExactly(p1, ts[1..]);
      }
    }
  }

  /** An ANSWERED event comes before every CONNECTED and every terminal one. */
  predicate AnsweredFirst(ts: seq<CallState>) {
    exists j :: 0 <= j < |ts| && ts[j] == CallState.Answered && forall i :: 0 <= i < j ==> Rank(ts[i]) < 4
  }

  lemma AnsweredFirstByHead(ts: seq<CallState>)
    requires ts != []
    ensures AnsweredFirst(ts) <==> ts[0] == CallState.Answered || (Rank(ts[0]) < 4 && AnsweredFirst(ts[1..]))
  {
    if j :| 0 < j < |ts| && ts[j] == CallState.Answered && forall i :: 0 <= i < j ==> Rank(ts[i]) < 4 {
      assert ts[1..][j - 1] == CallState.Answered;
    }
    if j :| 0 <= j < |ts| - 1 && ts[1..][j] == CallState.Answered
            && forall i :: 0 <= i < j ==> Rank(ts[1..][i]) < 4 {
      assert ts[j + 1] == CallState.Answered;
      assert forall i :: 0 < i < j + 1 ==> ts[i] == ts[1..][i - 1];
    }
  }

  lemma {:induction false} AnsweredStays(p: Progress, ts: seq<CallState>)
    requires forall t :: t in ts ==> Rank(t) >= 3
    requires p.answered
    ensures AdvanceAll(p, ts).answered
    decreases |ts|
  {
    if ts == [] {
    } else {
      AnsweredStays(Advance(p, ts[0]), ts[1..]);
    }
  }

  // ---------- streams of events on a linked store ----------

  function ProgressOf(w: World, key: CallKey): Progress
    requires key in w.calls && key.agent in w.agents
  {
    Progress(w.calls[key].state, w.agents[key.agent].state, w.calls[key].answeredAt.Some?)
  }

  /** From a linked store, an active call, its agent and its borrower end where the summary of its events puts them. */
  lemma ActiveCallFollowsEvents(s: Settings, w: World, es: seq<Event>, key: CallKey)
    requires Inv(s, w) && Active(w, key)
    ensures key.agent in w.agents
    ensures forall t :: t in TargetsOf(w, es, w.events, key) ==> Rank(t) >= 3
    ensures At(ProcessAll(s, w, es), key, AdvanceAll(ProgressOf(w, key), TargetsOf(w, es, w.events, key)))
  {
    ActiveIsAlone(s, w, key);
    EventsAdvance(s, w, es, key, ProgressOf(w, key));
  }

  /** The agent of an active call ends in wrap-up exactly when the call completes after a person was on the line. */
  lemma AgentWrapsUpExactlyAfterTalk(s: Settings, w: World, es: seq<Event>, key: CallKey)
    requires Inv(s, w) && Active(w, key)
    ensures var w' := ProcessAll(s, w, es);
            var ts := TargetsOf(w, es, w.events, key);
            var i := FirstTerminal(ts);
            key.agent in w'.agents
            && (w'.agents[key.agent].state == AgentState.WrapUp
                <==> i < |ts| && ts[i] == CallState.Completed
                     && (HumanOnLine(w.calls[key].state) || exists j :: 0 <= j < i && HumanOnLine(ts[j])))
  {
    ActiveIsAlone(s, w, key);
    ActiveCallFollowsEvents(s, w, es, key);
    WrapUpExactlyAfterTalk(ProgressOf(w, key), TargetsOf(w, es, w.events, key));
  }

  lemma {:induction false} EventsKeepInv(s: Settings, w: World, es: seq<Event>)
    requires Inv(s, w)
    ensures Inv(s, ProcessAll(s, w, es))
    decreases |es|
  {
    if es == [] {
    } else {
      EventKeepsInv(s, w, es[0]);
      EventsKeepInv(s, ProcessEvent(s, w, es[0]).0, es[1..]);
    }
  }

  lemma AnswerKnown(p: Progress, ts: seq<CallState>)
    requires forall t :: t in ts ==> Rank(t) >= 3
    ensures AdvanceAll(p, ts).answered <==> p.answered || (Rank(p.call) < 4 && AnsweredFirst(ts))
  {
    if p.answered { AnsweredStays(p, ts); } else { AnswerRecordedExactly(p, ts); }
  }

  /**
   * The borrower of an active call ends as contacted exactly when the first ending is COMPLETED and an
   * answer was on record, or comes before any CONNECTED event.
   */
  lemma BorrowerContactedExactly(s: Settings, w: World, es: seq<Event>, key: CallKey)
    requires Inv(s, w) && Active(w, key)
    ensures var w' := ProcessAll(s, w, es);
            var ts := TargetsOf(w, es, w.events, key);
            var i := FirstTerminal(ts);
            key.borrower in w'.borrowers
            && (w'.borrowers[key.borrower].status == BorrowerStatus.Contacted
                <==> i < |ts| && ts[i] == CallState.Completed
                     && (w.calls[key].answeredAt.Some? || (Rank(w.calls[key].state) < 4 && AnsweredFirst(ts))))
  {
    var w', ts := ProcessAll(s, w, es), TargetsOf(w, es, w.events, key);
    ActiveCallFollowsEvents(s, w, es, key);
    FinalCallState(ProgressOf(w, key), ts);
    AnswerKnown(ProgressOf(w, key), ts);
    EventsKeepInv(s, w, es);
    if !IsTerminal(w'.calls[key].state) { StillHeld(s, w', key); }
  }

  lemma StillHeld(s: Settings, w: World, key: CallKey)
    requires Inv(s, w) && key in w.calls && !IsTerminal(w.calls[key].state)
    ensures key.borrower in w.borrowers && w.borrowers[key.borrower].status == BorrowerStatus.Reserved
  {
    assert CallOk(w, key) && Linked(w, key);
  }

  /** Three events of one call just placed: a person answers, is put through, and the call completes. */
  predicate Conversation(w: World, key: CallKey, answered: Event, connected: Event, completed: Event) {
    && Active(w, key) && w.calls[key].state == CallState.Initiated && w.calls[key].answeredAt.None?
    && answered.kind == AnsweredEvent && connected.kind == ConnectedEvent && completed.kind == CompletedEvent
    && Concerns(w, answered, key) && Concerns(w, connected, key) && Concerns(w, completed, key)
    && answered.id !in w.events && connected.id !in w.events && completed.id !in w.events
    && answered.id != connected.id && answered.id != completed.id && connected.id != completed.id
  }

  lemma ThreeTargets(w: World, a: Event, b: Event, c: Event, key: CallKey)
    requires Concerns(w, a, key) && Concerns(w, b, key) && Concerns(w, c, key)
    requires a.id !in w.events && b.id !in w.events && c.id !in w.events
    requires a.id != b.id && a.id != c.id && b.id != c.id
    ensures TargetsOf(w, [a, b, c], w.events, key)
            == [EventTarget(a.kind).value, EventTarget(b.kind).value, EventTarget(c.kind).value]
  {
    FreshTargetsAreRelevant(w, [a, b, c], w.events, key);
    assert [a, b, c][1..] == [b, c] && [b, c][1..] == [c] && [c][1..] == [];
    assert Relevant(w, [c], key) == [EventTarget(c.kind).value];
    assert Relevant(w, [b, c], key) == [EventTarget(b.kind).value, EventTarget(c.kind).value];
  }

  /** Order is forgiven the call and its agent, but not the contact: swapped, the borrower counts as not reached. */
  lemma ContactDependsOnOrder(s: Settings, w: World, key: CallKey, answered: Event, connected: Event, completed: Event)
    requires Inv(s, w) && Conversation(w, key, answered, connected, completed)
    ensures var inOrder, swapped := ProcessAll(s, w, [answered, connected, completed]),
                                    ProcessAll(s, w, [connected, answered, completed]);
            && key in inOrder.calls && key in swapped.calls
            && key.agent in inOrder.agents && key.agent in swapped.agents
            && inOrder.calls[key].state == swapped.calls[key].state == CallState.Completed
            && inOrder.agents[key.agent].state == swapped.agents[key.agent].state == AgentState.WrapUp
            && key.borrower in inOrder.borrowers && key.borrower in swapped.borrowers
            && inOrder.borrowers[key.borrower].status == BorrowerStatus.Contacted
            && swapped.borrowers[key.borrower].status != BorrowerStatus.Contacted
  {
    OneOrder(s, w, key, answered, connected, completed);
    OneOrder(s, w, key, connected, answered, completed);
  }

  lemma OrderedTargets(w: World, key: CallKey, first: Event, second: Event, completed: Event)
    returns (ts: seq<CallState>)
    requires Conversation(w, key, first, second, completed) || Conversation(w, key, second, first, completed)
    ensures ts == TargetsOf(w, [first, second, completed], w.events, key) && |ts| == 3
    ensures HumanOnLine(ts[0]) && HumanOnLine(ts[1]) && ts[2] == CallState.Completed
    ensures AnsweredFirst(ts) <==> first.kind == AnsweredEvent
  {
    ThreeTargets(w, first, second, completed, key);
    ts := [EventTarget(first.kind).value, EventTarget(second.kind).value, CallState.Completed];
    AnsweredFirstByHead(ts);
  }

  lemma OneOrder(s: Settings, w: World, key: CallKey, first: Event, second: Event, completed: Event)
    requires Inv(s, w)
    requires Conversation(w, key, first, second, completed) || Conversation(w, key, second, first, completed)
    ensures var w' := ProcessAll(s, w, [first, second, completed]);
            && key in w'.calls && w'.calls[key].state == CallState.Completed
            && key.agent in w'.agents && w'.agents[key.agent].state == AgentState.WrapUp
            && key.borrower in w'.borrowers
            && (w'.borrowers[key.borrower].status == BorrowerStatus.Contacted <==> first.kind == AnsweredEvent)
  {
    var ts := OrderedTargets(w, key, first, second, completed);
    EndOfConversation(s, w, [first, second, completed], key, ts);
  }

  const PLACED := CallKey(0, 0, 0, 1)

  /** One call just placed and acknowledged under the id 9. */
  const ONE_CALL := World(
    map[0 := Agent(0, AgentState.Dialing, 3, Some(Lease(7, 0, 30000)), Some(PLACED), None, 0, 0, 0, 0, 0, 0)],
    map[0 := Borrower(0, BorrowerStatus.Reserved, 1, Some(Lease(7, 0, 30000)), 0, None, 0)],
    map[PLACED := Call(0, CallState.Initiated, Rank(CallState.Initiated), false, Some(9), 7, 0, Some(0), None, None,
                       None, None, 0)],
    map[ProviderRef(0, 9) := PLACED], {}, 0, [])

  lemma OneCallIsLinked(s: Settings)
    requires s.maxAttempts >= 1
    ensures Inv(s, ONE_CALL)
  {
    assert Linked(ONE_CALL, PLACED);
  }

  /** There is such a conversation: the contact really is lost when the provider's events come swapped. */
  lemma SwappedEventsLoseTheContact(s: Settings)
    requires s.maxAttempts >= 1
    ensures var answered := Event(EventId(0, 0), 9, AnsweredEvent);
            var connected := Event(EventId(0, 1), 9, ConnectedEvent);
            var completed := Event(EventId(0, 2), 9, CompletedEvent);
            && Inv(s, ONE_CALL) && Conversation(ONE_CALL, PLACED, answered, connected, completed)
            && var inOrder, swapped := ProcessAll(s, ONE_CALL, [answered, connected, completed]),
                                       ProcessAll(s, ONE_CALL, [connected, answered, completed]);
               && 0 in inOrder.borrowers && inOrder.borrowers[0].status == BorrowerStatus.Contacted
               && 0 in swapped.borrowers && swapped.borrowers[0].status != BorrowerStatus.Contacted
  {
    OneCallIsLinked(s);
    ContactDependsOnOrder(s, ONE_CALL, PLACED, Event(EventId(0, 0), 9, AnsweredEvent),
                          Event(EventId(0, 1), 9, ConnectedEvent), Event(EventId(0, 2), 9, CompletedEvent));
  }

  lemma EndOfConversation(s: Settings, w: World, es: seq<Event>, key: CallKey, ts: seq<CallState>)
    requires Inv(s, w) && Active(w, key) && w.calls[key].state == CallState.Initiated && w.calls[key].answeredAt.None?
    requires ts == TargetsOf(w, es, w.events, key) && |ts| == 3 && ts[2] == CallState.Completed
    requires HumanOnLine(ts[0]) && HumanOnLine(ts[1])
    ensures var w' := ProcessAll(s, w, es);
            && key in w'.calls && w'.calls[key].state == CallState.Completed
            && key.agent in w'.agents && w'.agents[key.agent].state == AgentState.WrapUp
            && key.borrower in w'.borrowers
            && (w'.borrowers[key.borrower].status == BorrowerStatus.Contacted <==> AnsweredFirst(ts))
  {
    var i := FirstTerminal(ts);
    assert i == 2;
    ActiveCallFollowsEvents(s, w, es, key);
    FinalCallState(ProgressOf(w, key), ts);
    AgentWrapsUpExactlyAfterTalk(s, w, es, key);
    BorrowerContactedExactly(s, w, es, key);
  }

  predicate FreshIds(es: seq<Event>, seen: set<EventId>) {
    && (forall e :: e in es ==> e.id !in seen)
    && (forall i, j :: 0 <= i < j < |es| ==> es[i].id != es[j].id)
  }

  function Relevant(w: World, es: seq<Event>, key: CallKey): seq<CallState>
    decreases |es|
  {
    if es == [] then []
    else if Concerns(w, es[0], key) then [EventTarget(es[0].kind).value] + Relevant(w, es[1..], key)
    else Relevant(w, es[1..], key)
  }

  lemma {:induction false} FreshTargetsAreRelevant(w: World, es: seq<Event>, seen: set<EventId>, key: CallKey)
    requires FreshIds(es, seen)
    ensures TargetsOf(w, es, seen, key) == Relevant(w, es, key)
    decreases |es|
  {
    if es == [] {
    } else {
      FreshTargetsAreRelevant(w, es[1..], seen + {es[0].id}, key);
    }
  }

  lemma {:induction false} RelevantOfParts(w: World, es: seq<Event>, us: seq<Event>, key: CallKey)
    ensures Relevant(w, es + us, key) == Relevant(w, es, key) + Relevant(w, us, key)
    decreases |es|
  {
    if es == [] {
      assert es + us == us;
    } else {
      RelevantOfParts(w, es[1..], us, key);
      assert (es + us)[1..] == es[1..] + us;
    }
  }

  lemma {:induction false} RelevantPermutes(w: World, es: seq<Event>, us: seq<Event>, key: CallKey)
    requires multiset(es) == multiset(us)
    ensures multiset(Relevant(w, es, key)) == multiset(Relevant(w, us, key))
    decreases |es|
  {
    if es == [] {
      assert |us| == |multiset(us)| == 0;
    } else {
      var i := FirstTakenOut(es, us);
      TakenOut(us, i);
      assert es == [es[0]] + es[1..];
      RelevantPermutes(w, es[1..], us[..i] + us[i + 1..], key);
      RelevantOfParts(w, us[..i], us[i + 1..], key);
      RelevantOfParts(w, us[..i] + [us[i]], us[i + 1..], key);
      RelevantOfParts(w, us[..i], [us[i]], key);
      RelevantOfParts(w, [es[0]], es[1..], key);
    }
  }

  /** Delivered in any order, events with at most one kind of ending leave an active call in the same state. */
  lemma DeliveryOrderDoesNotMatter(s: Settings, w: World, es: seq<Event>, us: seq<Event>, key: CallKey)
    requires Inv(s, w) && Active(w, key)
    requires FreshIds(es, w.events) && FreshIds(us, w.events) && multiset(es) == multiset(us)
    requires forall t, u :: t in Relevant(w, es, key) && IsTerminal(t) && u in Relevant(w, es, key) && IsTerminal(u) ==>
               t == u
    ensures key in ProcessAll(s, w, es).calls && key in ProcessAll(s, w, us).calls
    ensures ProcessAll(s, w, es).calls[key].state == ProcessAll(s, w, us).calls[key].state
  {
    ActiveIsAlone(s, w, key);
    FreshTargetsAreRelevant(w, es, w.events, key);
    FreshTargetsAreRelevant(w, us, w.events, key);
    RelevantPermutes(w, es, us, key);
    ActiveCallFollowsEvents(s, w, es, key);
    ActiveCallFollowsEvents(s, w, us, key);
    OrderDoesNotMatterToCall(ProgressOf(w, key), Relevant(w, es, key), Relevant(w, us, key));
  }
}
