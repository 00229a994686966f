/** The agent state machine: which moves exist, and who may make them. */
module AgentMachine {
  datatype AgentState = Offline | Available | Reserved | Dialing | Connected | WrapUp | Paused

  datatype Actor = Allocator | EventProcessor | Recovery | Self | WorkerTimer

  function Targets(from: AgentState): set<AgentState> {
    match from
    case Offline => {Available}
    case Available => {Reserved, Paused, Offline}
    case Reserved => {Dialing, Available, Offline}
    case Dialing => {Connected, Available, Offline}
    case Connected => {WrapUp, Available, Offline}
    case WrapUp => {Available, Paused, Offline}
    case Paused => {Available, Offline}
  }

  function Actors(from: AgentState, to: AgentState): set<Actor> {
    match (from, to)
    case (Offline, Available) => {Self}
    case (Available, Reserved) => {Allocator}
    case (Available, Paused) => {Self}
    case (Available, Offline) => {Self, Recovery}
    case (Reserved, Dialing) => {Allocator}
    case (Reserved, Available) => {Allocator, Recovery}
    case (Reserved, Offline) => {Self, Recovery}
    case (Dialing, Connected) => {EventProcessor}
    case (Dialing, Available) => {Allocator, EventProcessor, Recovery}
    case (Dialing, Offline) => {Self, Recovery}
    case (Connected, WrapUp) => {EventProcessor}
    case (Connected, Available) => {EventProcessor, Recovery}
    case (Connected, Offline) => {Self, Recovery}
    case (WrapUp, Available) => {WorkerTimer, Recovery}
    case (WrapUp, Paused) => {Self}
    case (WrapUp, Offline) => {Self, Recovery}
    case (Paused, Available) => {Self}
    case (Paused, Offline) => {Self, Recovery}
    case _ => {}
  }

  /** `validate_transition` raises exactly when this is false. */
  predicate Authorised(from: AgentState, to: AgentState, actor: Actor) {
    to in Targets(from) && actor in Actors(from, to)
  }

  function AllowedSources(to: AgentState, actor: Actor): set<AgentState> {
    set from: AgentState | Authorised(from, to, actor)
  }

  /** Which agents each releasing actor can free, and into what. */
  lemma ReleaseSources()
    ensures AllowedSources(Available, Allocator) == {Reserved, Dialing}
    ensures AllowedSources(Available, EventProcessor) == {Dialing, Connected}
    ensures AllowedSources(Available, Recovery) == {Reserved, Dialing, Connected, WrapUp}
    ensures AllowedSources(WrapUp, EventProcessor) == {Connected}
  {
  }

  /** Nobody is authorised for a move outside the transition table, and every move has an actor. */
  lemma ActorsMatchTargets(from: AgentState, to: AgentState)
    ensures to in Targets(from) <==> Actors(from, to) != {}
    ensures from !in Targets(from)
  {
  }
}

/** The call state machine: ranks, transitions, and when a provider event applies. */
module CallMachine {
  import AgentMachine

  datatype CallState =
    Queued | Reserved | Initiated | Ringing | Answered | Connected | Completed | Failed | Cancelled

  datatype Applicability = Apply | IgnoreTerminal | IgnoreStale | IgnoreInvalid

  function Rank(s: CallState): nat {
    match s
    case Queued => 0
    case Reserved => 1
    case Initiated => 2
    case Ringing => 3
    case Answered => 4
    case Connected => 5
    case Completed => 6
    case Failed => 6
    case Cancelled => 6
  }

  predicate IsTerminal(s: CallState) {
    s.Completed? || s.Failed? || s.Cancelled?
  }

  function Targets(from: CallState): set<CallState> {
    match from
    case Queued => {Reserved, Initiated, Failed, Cancelled}
    case Reserved => {Initiated, Failed, Cancelled}
    case Initiated => {Ringing, Answered, Connected, Completed, Failed, Cancelled}
    case Ringing => {Answered, Connected, Completed, Failed, Cancelled}
    case Answered => {Connected, Completed, Failed, Cancelled}
    case Connected => {Completed, Failed, Cancelled}
    case Completed => {}
    case Failed => {}
    case Cancelled => {}
  }

  predicate CanTransition(from: CallState, to: CallState) {
    to in Targets(from)
  }

  function ShouldApplyEvent(current: CallState, target: CallState): Applicability {
    if IsTerminal(current) then IgnoreTerminal
    else if Rank(target) <= Rank(current) then IgnoreStale
    else if !CanTransition(current, target) then IgnoreInvalid
    else Apply
  }

  /** The agent state a call state implies; queued and reserved calls imply none. */
  function AgentStateFor(s: CallState): AgentMachine.AgentState
    requires Rank(s) >= 2
  {
    match s
    case Initiated => AgentMachine.Dialing
    case Ringing => AgentMachine.Dialing
    case Answered => AgentMachine.Connected
    case Connected => AgentMachine.Connected
    case Completed => AgentMachine.WrapUp
    case Failed => AgentMachine.Available
    case Cancelled => AgentMachine.Available
  }

  /**
   * A check made on an old reading still licenses the update it guards: if the call has only
   * moved up in rank since, and the rank guard of the update holds, the move is legal now.
   */
  lemma StaleCheckStaysLegal(read: CallState, now: CallState, target: CallState)
    requires CanTransition(read, target)
    requires Rank(read) <= Rank(now) < Rank(target)
    ensures CanTransition(now, target)
  {
  }

  /** From INITIATED on, the rank guard alone decides: every higher-ranked state is legal. */
  lemma RankGuardSuffices(now: CallState, target: CallState)
    requires Rank(now) >= 2
    ensures Rank(now) < Rank(target) <==> CanTransition(now, target)
    ensures ShouldApplyEvent(now, target) != IgnoreInvalid
  {
  }
}
