/** Borrowers under every interleaving: bounded attempts, and the backoff between them. */
module BorrowersInterleaved {
  import opened Basics
  import opened AgentMachine
  import opened CallMachine
  import opened Documents
  import opened Store
  import opened Handlers
  import opened Interleavings

  /** Counts within the limit, a lease exactly while held, and the wait after the last attempt. */
  ghost predicate BorrowerSound(s: Settings, b: Borrower) {
    && b.status != BorrowerStatus.InCall
    && (b.status == BorrowerStatus.Reserved <==> b.lease.Some?)
    && (b.lease.Some? ==> b.lease.value.expiresAt == b.lease.value.reservedAt + s.ttl)
    && b.attemptCount <= s.maxAttempts
    && (b.status == BorrowerStatus.Pending || b.status == BorrowerStatus.Reserved ==> b.attemptCount < s.maxAttempts)
    && (b.status == BorrowerStatus.Exhausted ==> b.attemptCount == s.maxAttempts && s.maxAttempts >= 1)
    && (b.attemptCount >= 1 ==> WaitSound(s, b))
  }

  ghost predicate WaitSound(s: Settings, b: Borrower)
    requires b.attemptCount >= 1
  {
    && b.lastAttemptAt.Some?
    && (b.status == BorrowerStatus.Pending || b.status == BorrowerStatus.Reserved ==>
          b.nextEligibleAt >= b.lastAttemptAt.value + Backoff(s.backoffBase, b.attemptCount))
    && (b.status == BorrowerStatus.Reserved && b.lease.Some? ==>
          b.lease.value.reservedAt >= b.lastAttemptAt.value + Backoff(s.backoffBase, b.attemptCount))
  }

  ghost predicate BorrowersSound(s: Settings, f: Fine) {
    forall id :: id in f.w.borrowers ==> BorrowerSound(s, f.w.borrowers[id])
  }

  ghost predicate ReadsSound(s: Settings, f: Fine) {
    forall p :: p in f.borrowersRead ==>
      p.0 in f.w.borrowers && (p.1.status == BorrowerStatus.Reserved ==> p.1.attemptCount < s.maxAttempts)
  }

  /** Another attempt doubles the wait. */
  lemma BackoffDoubles(base: nat, k: nat)
    requires k >= 1
    ensures Backoff(base, k + 1) == Backoff(base, k) + Backoff(base, k)
  {
  }

  lemma ReleasedIsSound(s: Settings, b: Borrower, worker: WorkerId, outcome: ReleaseOutcome, now: Time)
    requires BorrowerSound(s, b)
    requires ReleaseBorrower(b, worker, outcome, s.maxAttempts, s.backoffBase, now).Some?
    ensures BorrowerSound(s, ReleaseBorrower(b, worker, outcome, s.maxAttempts, s.backoffBase, now).value)
  {
  }

  lemma ReservedIsSound(s: Settings, b: Borrower, campaign: CampaignId, worker: WorkerId, now: Time)
    requires BorrowerSound(s, b) && ReserveBorrower(b, campaign, worker, s.ttl, now).Some?
    ensures BorrowerSound(s, ReserveBorrower(b, campaign, worker, s.ttl, now).value)
  {
  }

  lemma HoldStep(s: Settings, f: Fine, campaign: CampaignId, id: BorrowerId, worker: WorkerId)
    requires BorrowersSound(s, f) && ReadsSound(s, f)
    ensures BorrowersSound(s, Take(s, f, Hold(campaign, id, worker)))
    ensures ReadsSound(s, Take(s, f, Hold(campaign, id, worker)))
  {
    var (w, r) := TryReserveBorrower(f.w, campaign, id, worker, s.ttl);
    if r.Some? { ReservedIsSound(s, f.w.borrowers[id], campaign, worker, w.now); }
  }

  lemma LetGoStep(s: Settings, f: Fine, id: BorrowerId, worker: WorkerId, outcome: ReleaseOutcome)
    requires BorrowersSound(s, f) && ReadsSound(s, f)
    ensures BorrowersSound(s, Take(s, f, LetBorrowerGo(id, worker, outcome)))
    ensures ReadsSound(s, Take(s, f, LetBorrowerGo(id, worker, outcome)))
  {
    var (w, r) := TryReleaseBorrower(s, f.w, id, worker, outcome);
    if r.Some? { ReleasedIsSound(s, f.w.borrowers[id], worker, outcome, w.now); }
  }

  /** A reclaimed hold becomes eligible at the sweep's time, which is past the backoff because the hold was. */
  lemma ReclaimStep(s: Settings, f: Fine, id: BorrowerId, read: Borrower, now: Time)
    requires BorrowersSound(s, f) && ReadsSound(s, f)
    ensures BorrowersSound(s, Take(s, f, ReclaimHold(id, read, now)))
    ensures ReadsSound(s, Take(s, f, ReclaimHold(id, read, now)))
  {
    assert id in f.w.borrowers ==> BorrowerSound(s, f.w.borrowers[id]);
  }

  predicate WritesBorrowers(op: Op) {
    op.Hold? || op.LetBorrowerGo? || op.ReclaimHold? || op.ReadBorrower?
  }

  lemma OtherStepsKeepBorrowers(s: Settings, f: Fine, op: Op)
    requires !WritesBorrowers(op)
    ensures var f' := Take(s, f, op);
            f'.w.borrowers == f.w.borrowers && f'.firstAttempt == f.firstAttempt && f'.borrowersRead == f.borrowersRead
  {
    match op
    case AttachId(_, _) =>
    case MoveByEvent(_, _, _) =>
    case MoveAgentTo(_, _, _, _) =>
    case LetAgentGo(_, _, _, _) =>
    case Promote(_, _) =>
    case _ =>
  }

  lemma StepKeepsBorrowers(s: Settings, f: Fine, op: Op)
    requires BorrowersSound(s, f) && ReadsSound(s, f) && Enabled(s, f, op)
    ensures BorrowersSound(s, Take(s, f, op)) && ReadsSound(s, Take(s, f, op))
  {
    match op
    case Hold(campaign, id, worker) => HoldStep(s, f, campaign, id, worker);
    case LetBorrowerGo(id, worker, outcome) => LetGoStep(s, f, id, worker, outcome);
    case ReclaimHold(id, read, now) => ReclaimStep(s, f, id, read, now);
    case ReadBorrower(id) => assert id in f.w.borrowers ==> BorrowerSound(s, f.w.borrowers[id]);
    case _ => OtherStepsKeepBorrowers(s, f, op);
  }

  // ---------- the spread of the attempts ----------

  /** First and last attempt are at least the waits between them apart. */
  ghost predicate SpreadSound(s: Settings, firsts: map<BorrowerId, Time>, id: BorrowerId, b: Borrower) {
    b.attemptCount >= 1 ==>
      id in firsts && b.lastAttemptAt.Some?
      && b.lastAttemptAt.value >= firsts[id] + Backoff(s.backoffBase, b.attemptCount) - s.backoffBase
  }

  ghost predicate SpreadsSound(s: Settings, f: Fine) {
    forall id :: id in f.w.borrowers ==> SpreadSound(s, f.firstAttempt, id, f.w.borrowers[id])
  }

  /** An attempt that ends no earlier than its hold began adds its wait to the spread. */
  lemma AttemptAddsItsWait(
    s: Settings, now: Time, firsts: map<BorrowerId, Time>, id: BorrowerId, b: Borrower, b': Borrower
  )
    requires BorrowerSound(s, b) && SpreadSound(s, firsts, id, b)
    requires b.status == BorrowerStatus.Reserved && b.lease.value.reservedAt <= now
    requires b'.attemptCount == b.attemptCount + 1 && b'.lastAttemptAt == Some(now)
    ensures SpreadSound(s, if b'.attemptCount == 1 then firsts[id := now] else firsts, id, b')
  {
    if b.attemptCount >= 1 {
      BackoffDoubles(s.backoffBase, b.attemptCount);
    } else {
      assert Backoff(s.backoffBase, 1) == s.backoffBase;
    }
  }

  lemma LetGoKeepsSpreads(s: Settings, f: Fine, id: BorrowerId, worker: WorkerId, outcome: ReleaseOutcome)
    requires BorrowersSound(s, f) && SpreadsSound(s, f) && f.w.delays == []
    requires id in f.w.borrowers && f.w.borrowers[id].lease.Some? ==>
               f.w.borrowers[id].lease.value.reservedAt <= f.w.now
    ensures SpreadsSound(s, Take(s, f, LetBorrowerGo(id, worker, outcome)))
  {
    var (w, r) := TryReleaseBorrower(s, f.w, id, worker, outcome);
    if r.Some? {
      assert BorrowerSound(s, f.w.borrowers[id]) && SpreadSound(s, f.firstAttempt, id, f.w.borrowers[id]);
      if !outcome.Released? { AttemptAddsItsWait(s, f.w.now, f.firstAttempt, id, f.w.borrowers[id], r.value); }
    }
  }

  lemma StepKeepsSpreads(s: Settings, f: Fine, op: Op)
    requires BorrowersSound(s, f) && SpreadsSound(s, f) && f.w.delays == []
    requires op.LetBorrowerGo? && op.freed in f.w.borrowers && f.w.borrowers[op.freed].lease.Some? ==>
               f.w.borrowers[op.freed].lease.value.reservedAt <= f.w.now
    ensures SpreadsSound(s, Take(s, f, op))
  {
    match op
    case Hold(campaign, id, worker) =>
    case LetBorrowerGo(id, worker, outcome) => LetGoKeepsSpreads(s, f, id, worker, outcome);
    case ReclaimHold(id, read, now) =>
    case ReadBorrower(id) =>
    case _ => OtherStepsKeepBorrowers(s, f, op);
  }
}
