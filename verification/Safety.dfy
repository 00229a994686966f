/** The safety controller: eight limits, the smallest of which caps what a dialer may place this tick. */
module Safety {
  import opened Basics
  import opened Documents
  import opened ProviderHealth

  datatype Mode = Progressive | Predictive

  datatype LimitName =
    AgentCapacity | CampaignConcurrency | RingingCeiling | ProviderHealthLimit | ProgressiveModeCap | StaleState
    | AvailabilityDrop | FailureRate | EvaluationError

  datatype Constraint = Constraint(name: LimitName, limit: int, binding: bool)

  datatype Reading = Reading(
    available: nat,
    reserved: nat,
    active: nat,
    ringing: nat,
    expiredLeases: nat,
    failureRate: real,
    provider: HealthStatus)

  datatype SafetySettings = SafetySettings(
    maxSnapshotAge: real,
    dropThreshold: real,
    maxRingingRatio: real,
    failureThreshold: real)

  datatype FallbackReason =
    StaleStateReason | ProviderDegraded | AvailabilityDropped | ExcessiveRinging | HighFailureRate | EvaluationFailed

  datatype Verdict = Approved | Reduced | Rejected | FallbackProgressive

  datatype Decision = Decision(
    requested: int,
    approved: nat,
    verdict: Verdict,
    constraints: seq<Constraint>,
    binding: Option<LimitName>,
    fallback: Option<FallbackReason>)

  datatype Request = Request(requested: int, mode: Mode, capturedAt: Time)

  // ---------- the limits ----------

  /** Python's `int`: toward zero. */
  function Truncate(x: real): int {
    if x >= 0.0 then x.Floor else -((-x).Floor)
  }

  function RingingLimit(s: SafetySettings, r: Reading): int {
    Truncate(s.maxRingingRatio * r.available as real)
  }

  predicate IsStale(s: SafetySettings, r: Reading, req: Request, now: Time) {
    Max(0, now - req.capturedAt) as real > s.maxSnapshotAge || r.expiredLeases > 0
  }

  function HealthLimit(status: HealthStatus, uncapped: int, progressive: int): int {
    match status
    case Unhealthy => 0
    case Degraded => progressive
    case Healthy => uncapped
  }

  function BuildConstraints(
    s: SafetySettings, cap: int, req: Request, r: Reading, ceiling: int, stale: bool, drop: real
  ): (cs: seq<Constraint>)
    ensures |cs| == 8 && forall c :: c in cs ==> !c.binding
  {
    var uncapped, progressive := req.requested, r.available;
    [ Constraint(AgentCapacity, Max(0, r.available - r.reserved), false),
      Constraint(CampaignConcurrency, Max(0, cap - r.active), false),
      Constraint(RingingCeiling, Max(0, ceiling - r.ringing), false),
      Constraint(ProviderHealthLimit, HealthLimit(r.provider, uncapped, progressive), false),
      Constraint(ProgressiveModeCap, if req.mode == Progressive then progressive else uncapped, false),
      Constraint(StaleState, if stale then 0 else uncapped, false),
      Constraint(AvailabilityDrop, if drop > s.dropThreshold then progressive else uncapped, false),
      Constraint(FailureRate, if r.failureRate > s.failureThreshold then progressive else uncapped, false) ]
  }

  function LeastLimit(first: int, cs: seq<Constraint>): (m: int)
    ensures m <= first && (forall i :: 0 <= i < |cs| ==> m <= cs[i].limit)
    ensures m == first || exists i :: 0 <= i < |cs| && cs[i].limit == m
    decreases cs
  {
    if cs == [] then first
    else
      var rest := LeastLimit(Min(first, cs[0].limit), cs[1..]);
      assert forall i :: 0 < i < |cs| ==> cs[i] == cs[1..][i - 1];
      rest
  }

  function Approve(requested: int, cs: seq<Constraint>): nat {
    Max(0, LeastLimit(requested, cs))
  }

  /** The short formula: only staleness, an unhealthy provider, and three capacities ever matter. */
  function ShortApproval(cap: int, req: Request, r: Reading, ceiling: int, stale: bool): nat {
    if stale || r.provider == Unhealthy then 0
    else
      Max(0, Min(req.requested,
                 Min(Max(0, r.available - r.reserved), Min(Max(0, cap - r.active), Max(0, ceiling - r.ringing)))))
  }

  /** The eight-limit minimum is the short formula: the four progressive fallbacks never change it. */
  lemma EightLimitsAreFive(
    s: SafetySettings, cap: int, req: Request, r: Reading, ceiling: int, stale: bool, drop: real
  )
    ensures Approve(req.requested, BuildConstraints(s, cap, req, r, ceiling, stale, drop))
            == ShortApproval(cap, req, r, ceiling, stale)
  {
    var cs := BuildConstraints(s, cap, req, r, ceiling, stale, drop);
    var m := LeastLimit(req.requested, cs);
    assert m <= cs[0].limit && m <= cs[1].limit && m <= cs[2].limit && m <= cs[3].limit && m <= cs[5].limit;
    if m != req.requested {
      var i :| 0 <= i < |cs| && cs[i].limit == m;
    }
  }

  /**
   * For the same request and readings, neither the dialing mode nor a drop nor the failure rate changes the
   * approval.
   */
  lemma ModeNeverChangesApproval(
    s: SafetySettings, cap: int, req: Request, other: Request, r: Reading, r': Reading, ceiling: int, stale: bool,
    drop: real, drop': real
  )
    requires other == req.(mode := other.mode) && r' == r.(failureRate := r'.failureRate)
    ensures Approve(req.requested, BuildConstraints(s, cap, req, r, ceiling, stale, drop))
            == Approve(other.requested, BuildConstraints(s, cap, other, r', ceiling, stale, drop'))
  {
    EightLimitsAreFive(s, cap, req, r, ceiling, stale, drop);
    EightLimitsAreFive(s, cap, other, r', ceiling, stale, drop');
  }

  /** Nothing is ever approved beyond the request or beyond any of the three capacities. */
  lemma ApprovalFits(cap: int, req: Request, r: Reading, ceiling: int, stale: bool)
    ensures var n := ShortApproval(cap, req, r, ceiling, stale);
            && (n > 0 ==>
                  n <= req.requested && n <= r.available - r.reserved && r.active + n <= cap
                  && r.ringing + n <= ceiling)
            && (n == 0 <==> stale || r.provider == Unhealthy || req.requested <= 0 || r.available <= r.reserved
                             || cap <= r.active || ceiling <= r.ringing)
  {
  }

  // ---------- the binding limit ----------

  /** The first limit that equals what was approved, when that is less than requested. */
  predicate BindsAt(cs: seq<Constraint>, approved: int, requested: int, i: nat)
    requires i < |cs|
  {
    approved < requested && cs[i].limit == approved && forall j :: 0 <= j < i ==> cs[j].limit != approved
  }

  method MarkBinding(cs: seq<Constraint>, approved: int, requested: int) returns (result: seq<Constraint>)
    requires forall c :: c in cs ==> !c.binding
    ensures |result| == |cs|
    ensures forall i :: 0 <= i < |cs| ==> result[i] == cs[i].(binding := BindsAt(cs, approved, requested, i))
  {
    if approved >= requested {
      assert forall i :: 0 <= i < |cs| ==> !BindsAt(cs, approved, requested, i) && cs[i] in cs;
      return cs;
    }
    var marked := false;
    result := [];
    for i := 0 to |cs|
      invariant |result| == i
      invariant marked <==> exists j :: 0 <= j < i && cs[j].limit == approved
      invariant forall j :: 0 <= j < i ==> result[j] == cs[j].(binding := BindsAt(cs, approved, requested, j))
    {
      var binding := !marked && cs[i].limit == approved;
      marked := marked || binding;
      result := result + [cs[i].(binding := binding)];
    }
  }

  lemma BindsOnce(cs: seq<Constraint>, approved: int, requested: int, i: nat, j: nat)
    requires i < |cs| && j < |cs| && BindsAt(cs, approved, requested, i) && BindsAt(cs, approved, requested, j)
    ensures i == j
  {
  }

  lemma {:induction false} FirstBinding(cs: seq<Constraint>, approved: int, requested: int, n: nat) returns (i: nat)
    requires n < |cs| && approved < requested && cs[n].limit == approved
    ensures i <= n && BindsAt(cs, approved, requested, i)
  {
    if j: nat :| j < n && cs[j].limit == approved {
      i := FirstBinding(cs, approved, requested, j);
    } else {
      i := n;
    }
  }

  /**
   * With the approval made from these limits, exactly one of them binds if less than requested is approved,
   * else none.
   */
  lemma OneBindsIff(cs: seq<Constraint>, requested: int)
    requires forall i :: 0 <= i < |cs| ==> cs[i].limit >= Min(0, requested)
    ensures var approved := Approve(requested, cs);
            && (approved < requested <==> exists i: nat :: i < |cs| && BindsAt(cs, approved, requested, i))
            && forall i: nat, j: nat ::
                 i < |cs| && j < |cs| && BindsAt(cs, approved, requested, i) && BindsAt(cs, approved, requested, j) ==>
                   i == j
  {
    var approved := Approve(requested, cs);
    forall i: nat, j: nat |
      i < |cs| && j < |cs| && BindsAt(cs, approved, requested, i) && BindsAt(cs, approved, requested, j)
      ensures i == j
    {
      BindsOnce(cs, approved, requested, i, j);
    }
    if approved < requested {
      var n :| 0 <= n < |cs| && cs[n].limit == LeastLimit(requested, cs);
      var i := FirstBinding(cs, approved, requested, n);
    }
  }

  predicate CanBind(name: LimitName, r: Reading, stale: bool) {
    match name
    case AgentCapacity => true
    case CampaignConcurrency => true
    case RingingCeiling => true
    case ProviderHealthLimit => r.provider == Unhealthy
    case StaleState => stale
    case _ => false
  }

  /** The degraded, progressive-mode, availability-drop and failure-rate limits are never the binding one. */
  lemma FallbacksNeverBind(
    s: SafetySettings, cap: int, req: Request, r: Reading, ceiling: int, stale: bool, drop: real, cs: seq<Constraint>,
    i: nat
  )
    requires cs == BuildConstraints(s, cap, req, r, ceiling, stale, drop) && i < |cs|
    requires BindsAt(cs, Approve(req.requested, cs), req.requested, i)
    ensures CanBind(cs[i].name, r, stale)
  {
  }

  lemma LimitsAreFair(
    s: SafetySettings, cap: int, req: Request, r: Reading, ceiling: int, stale: bool, drop: real, cs: seq<Constraint>
  )
    requires cs == BuildConstraints(s, cap, req, r, ceiling, stale, drop)
    ensures forall i :: 0 <= i < |cs| ==> cs[i].limit >= Min(0, req.requested)
  {
  }

  // ---------- verdicts ----------

  function Fallback(s: SafetySettings, r: Reading, ceiling: int, stale: bool, drop: real): Option<FallbackReason> {
    if stale then Some(StaleStateReason)
    else if r.provider != Healthy then Some(ProviderDegraded)
    else if drop > s.dropThreshold then Some(AvailabilityDropped)
    else if r.ringing > ceiling then Some(ExcessiveRinging)
    else if r.failureRate > s.failureThreshold then Some(HighFailureRate)
    else None
  }

  function VerdictOf(requested: int, approved: int, fallback: Option<FallbackReason>): Verdict {
    if requested == 0 then Approved
    else if fallback.Some? && approved > 0 then FallbackProgressive
    else if approved == 0 then Rejected
    else if approved < requested then Reduced
    else Approved
  }

  /** The decision as one value; `VerdictsMeanWhatTheySay` and the lemmas above say what is in it. */
  function Decide(s: SafetySettings, cap: int, req: Request, r: Reading, drop: real, now: Time): Decision {
    var ceiling, stale := RingingLimit(s, r), IsStale(s, r, req, now);
    var cs := BuildConstraints(s, cap, req, r, ceiling, stale, drop);
    var approved := Approve(req.requested, cs);
    var reason := Fallback(s, r, ceiling, stale, drop);
    var marked := seq(8, i requires 0 <= i < 8 => cs[i].(binding := BindsAt(cs, approved, req.requested, i)));
    Decision(req.requested, approved, VerdictOf(req.requested, approved, reason), marked, FirstBound(marked), reason)
  }

  /** When the evaluation itself fails, nothing may be placed. */
  function FailClosed(req: Request): Decision {
    Decision(req.requested, 0, Rejected, [], Some(EvaluationError), Some(EvaluationFailed))
  }

  /** Such a decision is a rejection that says so, whatever was requested. */
  lemma FailureRejects(req: Request)
    ensures var d := FailClosed(req);
            && d.approved == 0 && d.requested == req.requested && d.verdict == Rejected && d.constraints == []
            && d.binding == Some(EvaluationError) && d.fallback == Some(EvaluationFailed)
  {
  }

  function FirstBound(cs: seq<Constraint>): Option<LimitName> {
    if cs == [] then None else if cs[0].binding then Some(cs[0].name) else FirstBound(cs[1..])
  }

  /** A request is rejected exactly when nothing may be placed; a stale or excessive-ringing fallback always is. */
  lemma VerdictsMeanWhatTheySay(s: SafetySettings, cap: int, req: Request, r: Reading, drop: real, now: Time)
    ensures var d := Decide(s, cap, req, r, drop, now);
            && d.approved == ShortApproval(cap, req, r, RingingLimit(s, r), IsStale(s, r, req, now))
            && (d.verdict == Rejected <==> d.approved == 0 && req.requested != 0)
            && (d.verdict == FallbackProgressive <==> d.approved > 0 && d.fallback.Some?)
            && (d.verdict == Reduced <==> 0 < d.approved < req.requested && d.fallback.None?)
            && (d.fallback == Some(StaleStateReason) || d.fallback == Some(ExcessiveRinging) ==> d.approved == 0)
  {
    EightLimitsAreFive(s, cap, req, r, RingingLimit(s, r), IsStale(s, r, req, now), drop);
  }

  /** More calls ring than the ratio times the available agents; a ratio below zero counts as no calls at all. */
  predicate RingsTooMuch(ratio: real, available: nat, ringing: nat) {
    (ringing > 0 && ringing as real > ratio * available as real) || ratio * available as real <= -1.0
  }

  lemma AboveTheLimit(s: SafetySettings, r: Reading)
    ensures r.ringing > RingingLimit(s, r) <==> RingsTooMuch(s.maxRingingRatio, r.available, r.ringing)
  {
    AboveWhole(s.maxRingingRatio * r.available as real, r.ringing);
  }

  lemma AboveWhole(x: real, n: nat)
    ensures n > Truncate(x) <==> (n > 0 && n as real > x) || x <= -1.0
  {
  }

  /** Why a decision falls back: the first that holds of stale state, provider, drop, ringing and failures. */
  lemma ReasonsInOrder(s: SafetySettings, cap: int, req: Request, r: Reading, drop: real, now: Time)
    ensures var reason := Decide(s, cap, req, r, drop, now).fallback;
            var stale := Max(0, now - req.capturedAt) as real > s.maxSnapshotAge || r.expiredLeases > 0;
            var dropped, ringing := drop > s.dropThreshold, RingsTooMuch(s.maxRingingRatio, r.available, r.ringing);
            && (reason == Some(StaleStateReason) <==> stale)
            && (reason == Some(ProviderDegraded) <==> !stale && r.provider != Healthy)
            && (reason == Some(AvailabilityDropped) <==> !stale && r.provider == Healthy && dropped)
            && (reason == Some(ExcessiveRinging) <==> !stale && r.provider == Healthy && !dropped && ringing)
            && (reason == Some(HighFailureRate) <==>
                  !stale && r.provider == Healthy && !dropped && !ringing && r.failureRate > s.failureThreshold)
            && (reason == None <==>
                  !stale && r.provider == Healthy && !dropped && !ringing && r.failureRate <= s.failureThreshold)
  {
    AboveTheLimit(s, r);
    var stale := IsStale(s, r, req, now);
    assert Decide(s, cap, req, r, drop, now).fallback == Fallback(s, r, RingingLimit(s, r), stale, drop);
  }

  /** What a limit reported under a name stands for: how many more calls its rule would allow. */
  function Allowance(
    name: LimitName, s: SafetySettings, cap: int, req: Request, r: Reading, drop: real, now: Time
  ): int {
    match name
    case AgentCapacity => if r.reserved < r.available then r.available - r.reserved else 0
    case CampaignConcurrency => if r.active < cap then cap - r.active else 0
    case RingingCeiling => if r.ringing < RingingLimit(s, r) then RingingLimit(s, r) - r.ringing else 0
    case ProviderHealthLimit =>
      if r.provider == Healthy then req.requested else if r.provider == Degraded then r.available else 0
    case ProgressiveModeCap => if req.mode == Predictive then req.requested else r.available
    case StaleState => if IsStale(s, r, req, now) then 0 else req.requested
    case AvailabilityDrop => if drop <= s.dropThreshold then req.requested else r.available
    case FailureRate => if r.failureRate <= s.failureThreshold then req.requested else r.available
    case EvaluationError => 0
  }

  /** A decision reports all eight limits, each once and with what its rule allows, and echoes the request. */
  lemma LimitsAreReported(s: SafetySettings, cap: int, req: Request, r: Reading, drop: real, now: Time)
    ensures var d := Decide(s, cap, req, r, drop, now);
            && d.requested == req.requested && |d.constraints| == 8
            && (forall i :: 0 <= i < 8 ==>
                  d.constraints[i].limit == Allowance(d.constraints[i].name, s, cap, req, r, drop, now))
            && (forall i, j :: 0 <= i < j < 8 ==> d.constraints[i].name != d.constraints[j].name)
            && (forall i :: 0 <= i < 8 ==> d.constraints[i].name != EvaluationError)
  {
    var cs := BuildConstraints(s, cap, req, r, RingingLimit(s, r), IsStale(s, r, req, now), drop);
    LimitsAreBuilt(s, cap, req, r, drop, now, cs);
    var d := Decide(s, cap, req, r, drop, now);
    assert forall i :: 0 <= i < 8 ==> d.constraints[i].name == cs[i].name && d.constraints[i].limit == cs[i].limit;
  }

  lemma LimitsAreBuilt(
    s: SafetySettings, cap: int, req: Request, r: Reading, drop: real, now: Time, cs: seq<Constraint>
  )
    requires cs == BuildConstraints(s, cap, req, r, RingingLimit(s, r), IsStale(s, r, req, now), drop)
    ensures forall i :: 0 <= i < 8 ==> cs[i].limit == Allowance(cs[i].name, s, cap, req, r, drop, now)
    ensures forall i, j :: 0 <= i < j < 8 ==> cs[i].name != cs[j].name
    ensures forall i :: 0 <= i < 8 ==> cs[i].name != EvaluationError
  {
  }

  lemma FirstBoundIsIt(cs: seq<Constraint>, i: nat)
    requires i < |cs| && cs[i].binding && forall j :: 0 <= j < i ==> !cs[j].binding
    ensures FirstBound(cs) == Some(cs[i].name)
    decreases i
  {
    if i == 0 {
    } else {
      FirstBoundIsIt(cs[1..], i - 1);
    }
  }

  lemma {:induction false} NothingBound(cs: seq<Constraint>)
    requires forall c :: c in cs ==> !c.binding
    ensures FirstBound(cs) == None
  {
    if cs == [] {
    } else {
      NothingBound(cs[1..]);
    }
  }

  predicate IsMarked(marked: seq<Constraint>, cs: seq<Constraint>, approved: int, requested: int) {
    |marked| == |cs| && forall i :: 0 <= i < |cs| ==>
      marked[i] == cs[i].(binding := BindsAt(cs, approved, requested, i))
  }

  lemma FirstBoundNames(cs: seq<Constraint>, marked: seq<Constraint>, approved: int, requested: int) returns (i: nat)
    requires IsMarked(marked, cs, approved, requested) && approved == Approve(requested, cs)
    requires forall i :: 0 <= i < |cs| ==> cs[i].limit >= Min(0, requested)
    ensures FirstBound(marked).Some? <==> approved < requested
    ensures approved < requested ==>
              i < |cs| && BindsAt(cs, approved, requested, i) && FirstBound(marked) == Some(cs[i].name)
  {
    i := 0;
    OneBindsIff(cs, requested);
    if approved < requested {
      i :| i < |cs| && BindsAt(cs, approved, requested, i);
      FirstBoundIsIt(marked, i);
    } else {
      NothingBound(marked);
    }
  }

  lemma MarkedNames(
    s: SafetySettings, cap: int, req: Request, r: Reading, ceiling: int, stale: bool, drop: real,
    cs: seq<Constraint>, marked: seq<Constraint>, approved: int
  )
    requires cs == BuildConstraints(s, cap, req, r, ceiling, stale, drop) && approved == Approve(req.requested, cs)
    requires IsMarked(marked, cs, approved, req.requested)
    ensures FirstBound(marked).Some? <==> approved < req.requested
    ensures FirstBound(marked).Some? ==> CanBind(FirstBound(marked).value, r, stale)
  {
    LimitsAreFair(s, cap, req, r, ceiling, stale, drop, cs);
    var i := FirstBoundNames(cs, marked, approved, req.requested);
    if approved < req.requested {
      FallbacksNeverBind(s, cap, req, r, ceiling, stale, drop, cs, i);
    }
  }

  /**
   * A decision names a binding limit exactly when it approves less than requested, and then it names one
   * of agent capacity, concurrency, ringing, an unhealthy provider or stale state.
   */
  lemma BindingIsNamedIff(s: SafetySettings, cap: int, req: Request, r: Reading, drop: real, now: Time)
    ensures var d := Decide(s, cap, req, r, drop, now);
            && (d.binding.Some? <==> d.approved < req.requested)
            && (d.binding.Some? ==> CanBind(d.binding.value, r, IsStale(s, r, req, now)))
  {
    var d := Decide(s, cap, req, r, drop, now);
    var ceiling, stale := RingingLimit(s, r), IsStale(s, r, req, now);
    var cs := BuildConstraints(s, cap, req, r, ceiling, stale, drop);
    MarkedNames(s, cap, req, r, ceiling, stale, drop, cs, d.constraints, d.approved);
  }

  /** Health gates dialing: a failing window approves nothing, an empty one lets the capacities decide again. */
  lemma HealthGates(
    hs: HealthSettings, window: seq<Sample>, s: SafetySettings, cap: int, req: Request, r: Reading, drop: real,
    now: Time
  )
    requires r.provider == HealthOf(hs, window).status
    ensures (exists n: nat :: n >= hs.unhealthyFailures && FailingSuffix(window, n)) ==>
              Decide(s, cap, req, r, drop, now).approved == 0
    ensures window == [] && SaneThresholds(hs) && !IsStale(s, r, req, now) ==>
              Decide(s, cap, req, r, drop, now).approved
              == Max(0, Min(req.requested,
                            Min(Max(0, r.available - r.reserved),
                                Min(Max(0, cap - r.active), Max(0, RingingLimit(s, r) - r.ringing)))))
  {
    UnhealthyIff(hs, window);
    SilenceIsHealthyIff(hs);
    EightLimitsAreFive(s, cap, req, r, RingingLimit(s, r), IsStale(s, r, req, now), drop);
  }

  // ---------- the stateful part ----------

  /** The share by which availability fell since the last reading, if that crosses the threshold. */
  function Detect(previous: Option<nat>, available: nat, threshold: real): Option<real> {
    if previous.None? || previous.value == 0 || available >= previous.value then None
    else
      var ratio := (previous.value - available) as real / previous.value as real;
      if ratio <= threshold then None else Some(ratio)
  }

  /** A drop is a share of the agents there were, and is reported only beyond the threshold. */
  lemma DropsAreShares(previous: nat, available: nat, threshold: real)
    requires threshold >= 0.0
    ensures var drop := Detect(Some(previous), available, threshold);
            && (drop.Some? <==> previous > 0 && (previous - available) as real > threshold * previous as real)
            && (drop.Some? ==> threshold < drop.value <= 1.0)
            && (drop.Some? ==> drop.value * previous as real == (previous - available) as real)
    ensures Detect(None, available, threshold) == None
  {
    var p := previous as real;
    if previous > 0 && available < previous {
      ShareBounds((previous - available) as real, p, threshold);
    } else {
      NonNegativeProduct(threshold, p);
    }
  }

  lemma ShareBounds(part: real, whole: real, threshold: real)
    requires 0.0 < whole && part <= whole
    ensures part / whole <= 1.0
    ensures part / whole > threshold <==> part > threshold * whole
  {
  }

  lemma NonNegativeProduct(x: real, y: real)
    requires x >= 0.0 && y >= 0.0
    ensures x * y >= 0.0
  {
  }

  class AvailabilityTracker {
    const threshold: real
    var previous: map<CampaignId, nat>

    constructor (threshold: real)
      ensures this.threshold == threshold && previous == map[]
    {
      this.threshold := threshold;
      previous := map[];
    }

    function PreviousOf(campaign: CampaignId): Option<nat>
      reads this
    {
      if campaign in previous then Some(previous[campaign]) else None
    }

    method RecordAndDetect(campaign: CampaignId, available: nat) returns (drop: Option<real>)
      modifies this
      ensures previous == old(previous)[campaign := available]
      ensures drop == Detect(old(PreviousOf(campaign)), available, threshold)
    {
      var before := PreviousOf(campaign);
      previous := previous[campaign := available];
      if before.None? || before.value == 0 || available >= before.value { return None; }
      var ratio := (before.value - available) as real / before.value as real;
      if ratio <= threshold { return None; }
      return Some(ratio);
    }
  }

  class SafetyController {
    const settings: SafetySettings
    const availability: AvailabilityTracker

    constructor (settings: SafetySettings, availability: AvailabilityTracker)
      ensures this.settings == settings && this.availability == availability
    {
      this.settings := settings;
      this.availability := availability;
    }

    /** `reading` is what the capacity query gave, if it did not fail. */
    method Evaluate(campaign: CampaignId, cap: int, req: Request, reading: Option<Reading>, now: Time)
      returns (d: Decision)
      modifies availability
      ensures reading.None? ==> d == FailClosed(req) && availability.previous == old(availability.previous)
      ensures reading.Some? ==> availability.previous == old(availability.previous)[campaign := reading.value.available]
      ensures reading.Some? ==>
                var r := reading.value;
                var drop := Detect(old(availability.PreviousOf(campaign)), r.available, availability.threshold);
                d == Decide(settings, cap, req, r, if drop.Some? then drop.value else 0.0, now)
    {
      if reading.None? { return FailClosed(req); }
      var r := reading.value;
      var stale := IsStale(settings, r, req, now);
      var detected := availability.RecordAndDetect(campaign, r.available);
      var drop := if detected.Some? then detected.value else 0.0;
      var ceiling := RingingLimit(settings, r);
      var reason := Fallback(settings, r, ceiling, stale, drop);
      var cs := BuildConstraints(settings, cap, req, r, ceiling, stale, drop);
      var approved := Approve(req.requested, cs);
      var marked := MarkBinding(cs, approved, req.requested);
      assert marked == Decide(settings, cap, req, r, drop, now).constraints;
      d := Decision(req.requested, approved, VerdictOf(req.requested, approved, reason), marked, FirstBound(marked),
                    reason);
    }
  }
}
