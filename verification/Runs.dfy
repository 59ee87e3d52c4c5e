/** Whole runs of the repository: any workers, any interleaving, any clock readings, any crashes. */
module Runs {
  import opened Basics
  import opened Tables
  import opened Transactions
  import opened Invariant
  import opened FlightProofs
  import opened ResultProofs
  import opened AttemptProofs
  import opened EndProofs
  import opened CancelProofs
  import opened RecoveryProofs
  import opened Evolution

  datatype Op =
    | TakeLease(owner: Id, duration: nat)
    | TakeOver(owner: Id, duration: nat)
    | Beat(token: Token, duration: nat)
    | GiveUp(token: Token)
    | AdmitRequest(r: Id, task: Id, fp: Id, domain: Id, token: Token, limits: QueuePolicy)
    | CancelRequest(r: Id, reason: Id, token: Token)
    | ClaimNext(domain: Id, token: Token)
    | ReserveNext(a: Id, r: Id, token: Token)
    | Acquire(v: Id, a: Id, attempt: Attempt, keys: Keys, policy: GatePolicy, token: Token)
    | Start(a: Id, token: Token)
    | Finish(v: Id, a: Id, r: Id, outcome: Outcome, retryAfter: Option<nat>, raw: bool, token: Token)
    | Discard(a: Id, token: Token)
    | FinalizeRequest(r: Id, result: Result, token: Token)

  // One call of the repository. A crashed worker simply makes no further calls.
  datatype Step = Step(op: Op, now: Time)

  function Committed<T>(tx: Tx<T>): Option<Db> {
    match tx
    case Commit(db, _) => Some(db)
    case Abort(_) => None
  }

  /** The tables a call commits, if it commits. */
  ghost function Effect(db: Db, s: Step): Option<Db> {
    match s.op
    case TakeLease(owner, duration) => Committed(AcquireLease(db, owner, s.now, duration))
    case TakeOver(owner, duration) => Committed(RecoverLease(db, owner, s.now, duration))
    case Beat(token, duration) => Committed(Heartbeat(db, token, s.now, duration))
    case GiveUp(token) => Committed(ReleaseLease(db, token, s.now))
    case AdmitRequest(r, task, fp, domain, token, limits) => Committed(Admit(db, r, task, fp, domain, token, s.now, limits))
    case CancelRequest(r, reason, token) => Committed(Cancel(db, r, reason, token, s.now))
    case ClaimNext(domain, token) => Committed(Claim(db, domain, token, s.now))
    case ReserveNext(a, r, token) => Committed(ReserveAttempt(db, a, r, token, s.now))
    case Acquire(v, a, attempt, keys, policy, token) => Committed(AcquireGates(db, v, a, attempt, keys, policy, token, s.now))
    case Start(a, token) => Committed(MarkStarted(db, a, token, s.now))
    case Finish(v, a, r, outcome, retryAfter, raw, token) =>
      Committed(FinishGates(db, v, a, r, outcome, retryAfter, raw, token, s.now))
    case Discard(a, token) => Committed(DiscardAttempt(db, a, token, s.now))
    case FinalizeRequest(r, result, token) => Committed(Finalize(db, r, result, token, s.now))
  }

  ghost function Next(db: Db, s: Step): Db {
    if Effect(db, s).Some? then Effect(db, s).value else db
  }

  /** What the repository leaves to its callers: an attempt is reserved only for a claimed request, a new attempt
      is put on the gates only if no other is live, and only an attempt that holds its gates is marked started. */
  ghost predicate Disciplined(db: Db, s: Step) {
    Effect(db, s).Some? ==>
      match s.op
      case ReserveNext(_, r, _) => r in db.queue && db.queue[r].state == Dequeued
      case Acquire(_, a, attempt, _, _, _) => !SecondLive(db, a, attempt.request)
      case Start(a, _) => HasHoldingReservation(db.reservations, a)
      case _ => true
  }

  /** Every call keeps the joint invariant exactly when its caller is disciplined. */
  lemma StepKeepsInvIff(db: Db, s: Step)
    requires Inv(db)
    ensures Inv(Next(db, s)) <==> Disciplined(db, s)
  {
    hide Inv, AcquireLease, RecoverLease, Admit, Cancel, Claim, AcquireGates, FinishGates, Finalize, ReserveAttempt, DiscardAttempt,
         MarkStarted, HasHoldingReservation, SecondLive, Fence, CalmGates, RequeuedOnly, InterruptAttempts, OtherDomain, HoldsRecord,
         AttemptFault, NextLeader, MayHaveBeenSent, Queued, AttemptsOf, Heartbeat, ReleaseLease;
    if Effect(db, s).Some? {
      match s.op
      case TakeLease(owner, duration) => AcquireLeaseTotal(db, owner, s.now, duration);
      case TakeOver(owner, duration) =>
        RecoverGuard(db, owner, s.now, duration);
        RecoverTotal(db, owner, s.now, duration);
      case Beat(token, duration) => HeartbeatKeepsInv(db, token, s.now, duration);
      case GiveUp(token) => GiveUpKeepsInv(db, token, s.now);
      case AdmitRequest(r, task, fp, domain, token, limits) =>
        AdmitGuard(db, r, task, fp, domain, token, s.now, limits);
        AdmitTotal(db, r, task, fp, domain, token, s.now, limits);
      case CancelRequest(r, reason, token) =>
        CancelGuard(db, r, reason, token, s.now);
        CancelTotal(db, r, reason, token, s.now);
      case ClaimNext(domain, token) => ClaimKeepsInv(db, domain, token, s.now);
      case ReserveNext(a, r, token) => ReserveKeepsInvIff(db, a, r, token, s.now);
      case Acquire(v, a, attempt, keys, policy, token) => AcquireKeepsInvIff(db, v, a, attempt, keys, policy, token, s.now);
      case Start(a, token) => MarkKeepsInvIff(db, a, token, s.now);
      case Finish(v, a, r, outcome, retryAfter, raw, token) =>
        FinishGuard(db, v, a, r, outcome, retryAfter, raw, token, s.now);
        FinishTotal(db, v, a, r, outcome, retryAfter, raw, token, s.now);
      case Discard(a, token) => DiscardKeepsInv(db, a, token, s.now);
      case FinalizeRequest(r, result, token) => FinalizeTotal(db, r, result, token, s.now);
    }
  }

  lemma HeartbeatKeepsInv(db: Db, token: Token, now: Time, duration: nat)
    requires Inv(db) && Heartbeat(db, token, now, duration).Commit?
    ensures Inv(Heartbeat(db, token, now, duration).db)
  {
    hide Inv;
    SameGenerationKeepsInv(db, Heartbeat(db, token, now, duration).db.lease.value);
  }

  lemma GiveUpKeepsInv(db: Db, token: Token, now: Time)
    requires Inv(db) && ReleaseLease(db, token, now).Commit?
    ensures Inv(ReleaseLease(db, token, now).db)
  {
    hide Inv;
    SameGenerationKeepsInv(db, ReleaseLease(db, token, now).db.lease.value);
  }

  lemma RecoverGuard(db: Db, owner: Id, now: Time, duration: nat)
    requires RecoverLease(db, owner, now, duration).Commit?
    ensures db.lease.Some? && db.lease.value.active && db.lease.value.heartbeatAt <= now && db.lease.value.expiresAt <= now
  {
    hide Reconcile, RecoveryFault, Releasable, StartedRequests, BetweenAttempts, HeldUpTo, Interrupt;
  }

  lemma AdmitGuard(db: Db, r: Id, task: Id, fp: Id, domain: Id, token: Token, now: Time, limits: QueuePolicy)
    requires Admit(db, r, task, fp, domain, token, now, limits).Commit?
    ensures Fence(db.lease, token, now).None? && r !in db.requests
  {
    hide Reconcile, JoinFlight, OpenFlight, Fence;
  }

  lemma CancelGuard(db: Db, r: Id, reason: Id, token: Token, now: Time)
    requires Cancel(db, r, reason, token, now).Commit?
    ensures Fence(db.lease, token, now).None?
  {
    hide CancelLeader, Fence, Close, Leave;
  }

  lemma FinishGuard(db: Db, v: Id, a: Id, r: Id, outcome: Outcome, retryAfter: Option<nat>, raw: bool, token: Token, now: Time)
    requires FinishGates(db, v, a, r, outcome, retryAfter, raw, token, now).Commit?
    ensures Fence(db.lease, token, now).None?
  {
    hide Releasable, Lowered, Settle, CoolDown, Fence;
  }

  /** No call undoes what is final: results, ended attempts, start times, cooldowns, generations. */
  lemma StepEvolves(db: Db, s: Step)
    requires Inv(db)
    ensures Evolves(db, Next(db, s))
  {
    hide Inv, AcquireLease, RecoverLease, Admit, Cancel, Claim, AcquireGates, FinishGates, Finalize, ReserveAttempt, DiscardAttempt,
         MarkStarted, Heartbeat, ReleaseLease, Evolves;
    if Effect(db, s).Some? {
      match s.op
      case TakeLease(owner, duration) => AcquireLeaseEvolves(db, owner, s.now, duration);
      case TakeOver(owner, duration) => RecoverEvolves(db, owner, s.now, duration);
      case Beat(token, duration) => HeartbeatEvolves(db, token, s.now, duration);
      case GiveUp(token) => ReleaseEvolves(db, token, s.now);
      case AdmitRequest(r, task, fp, domain, token, limits) =>
        AdmitGuard(db, r, task, fp, domain, token, s.now, limits);
        AdmitTotal(db, r, task, fp, domain, token, s.now, limits);
        AdmitEvolves(db, r, task, fp, domain, token, s.now, limits);
      case CancelRequest(r, reason, token) =>
        CancelGuard(db, r, reason, token, s.now);
        CancelEvolves(db, r, reason, token, s.now);
      case ClaimNext(domain, token) => ClaimEvolves(db, domain, token, s.now);
      case ReserveNext(a, r, token) => ReserveEvolves(db, a, r, token, s.now);
      case Acquire(v, a, attempt, keys, policy, token) => AcquireEvolves(db, v, a, attempt, keys, policy, token, s.now);
      case Start(a, token) => MarkEvolves(db, a, token, s.now);
      case Finish(v, a, r, outcome, retryAfter, raw, token) => FinishEvolves(db, v, a, r, outcome, retryAfter, raw, token, s.now);
      case Discard(a, token) => DiscardEvolves(db, a, token, s.now);
      case FinalizeRequest(r, result, token) => FinalizeEvolves(db, r, result, token, s.now);
    } else {
      Unchanged(db);
    }
  }

  // ---------------------------------------------------------------- runs

  ghost function Run(steps: seq<Step>): Db {
    if steps == [] then EMPTY_DB else Next(Run(steps[..|steps| - 1]), steps[|steps| - 1])
  }

  // The tables before step `i`; after the last step for `i == |steps|`.
  ghost function At(steps: seq<Step>, i: nat): Db
    requires i <= |steps|
  {
    Run(steps[..i])
  }

  ghost predicate DisciplinedRun(steps: seq<Step>) {
    forall i :: 0 <= i < |steps| ==> Disciplined(At(steps, i), steps[i])
  }

  lemma AtNext(steps: seq<Step>, i: nat)
    requires i < |steps|
    ensures At(steps, i + 1) == Next(At(steps, i), steps[i])
  {
    assert steps[..i + 1][..i] == steps[..i];
  }

  lemma PrefixDisciplined(steps: seq<Step>, n: nat)
    requires DisciplinedRun(steps) && n <= |steps|
    ensures DisciplinedRun(steps[..n])
  {
    forall i | 0 <= i < n
      ensures Disciplined(At(steps[..n], i), steps[..n][i])
    {
      assert steps[..n][..i] == steps[..i];
    }
  }

  /** The joint invariant holds in every state of every disciplined run. */
  lemma {:induction false} RunInv(steps: seq<Step>, i: nat)
    requires DisciplinedRun(steps) && i <= |steps|
    ensures Inv(At(steps, i))
  {
    hide Inv, Next, Disciplined;
    if i == 0 {
      EmptyHolds();
    } else {
      RunInv(steps, i - 1);
      AtNext(steps, i - 1);
      StepKeepsInvIff(At(steps, i - 1), steps[i - 1]);
    }
  }

  lemma {:induction false} RunEvolves(steps: seq<Step>, i: nat, j: nat)
    requires DisciplinedRun(steps) && i <= j <= |steps|
    ensures Evolves(At(steps, i), At(steps, j))
  {
    hide Inv, Evolves, Next, Disciplined, At;
    if i == j {
      Unchanged(At(steps, i));
    } else {
      RunEvolves(steps, i, j - 1);
      AtNext(steps, j - 1);
      RunInv(steps, j - 1);
      StepEvolves(At(steps, j - 1), steps[j - 1]);
      EvolvesTransitive(At(steps, i), At(steps, j - 1), At(steps, j));
    }
  }
}
