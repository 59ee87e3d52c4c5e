/** The repository at work performs exactly the runs whose properties are proved. */
module RepositoryRuns {
  import opened Tables
  import opened Transactions
  import opened Invariant
  import opened Runs
  import opened Repository

  lemma Followed<T>(tx: Tx<T>, before: Db, after: Db, reply: Reply<T>)
    requires Follows(tx, before, after, reply)
    ensures after == if Committed(tx).Some? then Committed(tx).value else before
    ensures reply.Done? <==> Committed(tx).Some?
  {
  }

  // The calls of leases, admission and cancellation.
  method PerformShared(repo: ProductionRequestRepository, s: Step) returns (done: bool)
    requires ForeignKeys(repo.Now())
    requires s.op.TakeLease? || s.op.TakeOver? || s.op.Beat? || s.op.GiveUp? || s.op.AdmitRequest? || s.op.CancelRequest?
    modifies repo
    ensures repo.Now() == Next(old(repo.Now()), s) && (done <==> Effect(old(repo.Now()), s).Some?)
  {
    hide AcquireLease, RecoverLease, Heartbeat, ReleaseLease, Admit, Cancel, ForeignKeys, Follows;
    ghost var was := repo.Now();
    match s.op
    case TakeLease(owner, duration) =>
      var reply := repo.AcquireLease(owner, s.now, duration);
      Followed(AcquireLease(was, owner, s.now, duration), was, repo.Now(), reply);
      done := reply.Done?;
    case TakeOver(owner, duration) =>
      var reply := repo.RecoverExpiredLease(owner, s.now, duration);
      Followed(RecoverLease(was, owner, s.now, duration), was, repo.Now(), reply);
      done := reply.Done?;
    case Beat(token, duration) =>
      var reply := repo.HeartbeatLease(token, s.now, duration);
      Followed(Heartbeat(was, token, s.now, duration), was, repo.Now(), reply);
      done := reply.Done?;
    case GiveUp(token) =>
      var reply := repo.ReleaseLease(token, s.now);
      Followed(ReleaseLease(was, token, s.now), was, repo.Now(), reply);
      done := reply.Done?;
    case AdmitRequest(r, task, fp, domain, token, limits) =>
      var reply := repo.AdmitLogicalRequest(r, task, fp, domain, token, s.now, limits);
      Followed(Admit(was, r, task, fp, domain, token, s.now, limits), was, repo.Now(), reply);
      done := reply.Done?;
    case CancelRequest(r, reason, token) =>
      var reply := repo.CancelAdmittedRequest(r, reason, token, s.now);
      Followed(Cancel(was, r, reason, token, s.now), was, repo.Now(), reply);
      done := reply.Done?;
  }

  // The calls of a worker on its request.
  method PerformRequest(repo: ProductionRequestRepository, s: Step) returns (done: bool)
    requires ForeignKeys(repo.Now())
    requires s.op.ClaimNext? || s.op.ReserveNext? || s.op.FinalizeRequest?
    modifies repo
    ensures repo.Now() == Next(old(repo.Now()), s) && (done <==> Effect(old(repo.Now()), s).Some?)
  {
    hide Claim, ReserveAttempt, Finalize, ForeignKeys, Follows;
    ghost var was := repo.Now();
    match s.op
    case ClaimNext(domain, token) =>
      var reply := repo.ClaimNextQueued(domain, token, s.now);
      Followed(Claim(was, domain, token, s.now), was, repo.Now(), reply);
      done := reply.Done?;
    case ReserveNext(a, r, token) =>
      var reply := repo.ReserveNextPhysicalAttempt(a, r, token, s.now);
      Followed(ReserveAttempt(was, a, r, token, s.now), was, repo.Now(), reply);
      done := reply.Done?;
    case FinalizeRequest(r, result, token) =>
      var reply := repo.FinalizeLogicalRequest(r, result, token, s.now);
      Followed(Finalize(was, r, result, token, s.now), was, repo.Now(), reply);
      done := reply.Done?;
  }

  // The calls of a worker on one attempt.
  method PerformAttempt(repo: ProductionRequestRepository, s: Step) returns (done: bool)
    requires ForeignKeys(repo.Now())
    requires s.op.Acquire? || s.op.Start? || s.op.Finish? || s.op.Discard?
    modifies repo
    ensures repo.Now() == Next(old(repo.Now()), s) && (done <==> Effect(old(repo.Now()), s).Some?)
  {
    hide AcquireGates, MarkStarted, FinishGates, DiscardAttempt, ForeignKeys, Follows;
    ghost var was := repo.Now();
    match s.op
    case Acquire(v, a, attempt, keys, policy, token) =>
      var reply := repo.AcquireGates(v, a, attempt, keys, policy, token, s.now);
      Followed(AcquireGates(was, v, a, attempt, keys, policy, token, s.now), was, repo.Now(), reply);
      done := reply.Done?;
    case Start(a, token) =>
      var reply := repo.MarkPhysicalAttemptStarted(a, token, s.now);
      Followed(MarkStarted(was, a, token, s.now), was, repo.Now(), reply);
      done := reply.Done?;
    case Finish(v, a, r, outcome, retryAfter, raw, token) =>
      var reply := repo.FinishGateReservation(v, a, r, outcome, retryAfter, raw, token, s.now);
      Followed(FinishGates(was, v, a, r, outcome, retryAfter, raw, token, s.now), was, repo.Now(), reply);
      done := reply.Done?;
    case Discard(a, token) =>
      var reply := repo.DiscardReservedAttempt(a, token, s.now);
      Followed(DiscardAttempt(was, a, token, s.now), was, repo.Now(), reply);
      done := reply.Done?;
  }

  /** Any one call, on tables that satisfy the invariant, keeps it exactly when the caller is disciplined. */
  method Perform(repo: ProductionRequestRepository, s: Step) returns (done: bool)
    requires Inv(repo.Now())
    modifies repo
    ensures repo.Now() == Next(old(repo.Now()), s) && (done <==> Effect(old(repo.Now()), s).Some?)
    ensures Inv(repo.Now()) <==> old(Disciplined(repo.Now(), s))
  {
    InvariantReferences(repo.Now());
    StepKeepsInvIff(repo.Now(), s);
    hide Inv, Effect, Next, Disciplined, ForeignKeys;
    if s.op.TakeLease? || s.op.TakeOver? || s.op.Beat? || s.op.GiveUp? || s.op.AdmitRequest? || s.op.CancelRequest? {
      done := PerformShared(repo, s);
    } else if s.op.ClaimNext? || s.op.ReserveNext? || s.op.FinalizeRequest? {
      done := PerformRequest(repo, s);
    } else {
      done := PerformAttempt(repo, s);
    }
  }

  /** A new repository, called by disciplined callers in any interleaving, goes through exactly the states of the run. */
  method PerformAll(steps: seq<Step>) returns (repo: ProductionRequestRepository)
    requires DisciplinedRun(steps)
    ensures fresh(repo) && repo.Now() == Run(steps) && Inv(repo.Now())
  {
    hide Inv, Next, Disciplined, Run;
    repo := new ProductionRequestRepository();
    RunInv(steps, 0);
    NothingRun(steps);
    for i := 0 to |steps|
      invariant fresh(repo) && repo.Now() == At(steps, i) && Inv(repo.Now())
    {
      AtNext(steps, i);
      RunInv(steps, i + 1);
      var done := Perform(repo, steps[i]);
    }
    assert steps[..|steps|] == steps;
  }

  lemma NothingRun(steps: seq<Step>)
    ensures At(steps, 0) == EMPTY_DB
  {
    assert steps[..0] == [];
  }
}
