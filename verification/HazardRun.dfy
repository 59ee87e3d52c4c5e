/** A run that reaches the hazard: a worker crashes between gating its first attempt and starting it. */
module HazardRun {
  import opened Basics
  import opened Tables
  import opened Transactions
  import opened Invariant
  import opened FlightProofs
  import opened ResultProofs
  import opened AttemptProofs
  import opened RecoveryProofs
  import opened Evolution
  import opened Runs
  import opened Limits
  import opened Drivers
  import opened Hazards

  const ONE_KEY: Keys := map[Global := 0, Egress := 0, Provider := 0, Origin := 0, Credential := 0, Operation := 0,
                             TaskScope := 0, RoleScope := 0]
  const LIMIT := Limit(1, 0, 2, 1)
  const ONE_POLICY: GatePolicy := map[Global := LIMIT, Egress := LIMIT, Provider := LIMIT, Origin := LIMIT,
                                      Credential := LIMIT, Operation := LIMIT, TaskScope := LIMIT, RoleScope := LIMIT]
  const FIRST_OWNER := Token(1, 1, 0, 10)
  const SECOND_OWNER := Token(2, 2, 10, 20)
  const FIRST_ATTEMPT := Attempt(1, 1, 1, 0, Reserved, false)
  const SECOND_ATTEMPT := Attempt(1, 2, 2, 10, Reserved, false)

  const LEASED := [Step(TakeLease(1, 10), 0)]
  const ADMITTED := LEASED + [Step(AdmitRequest(1, 1, 1, 1, FIRST_OWNER, QueuePolicy(1, 1, 1)), 0)]
  const CLAIMED := ADMITTED + [Step(ClaimNext(1, FIRST_OWNER), 0)]
  const GATED := CLAIMED + [Step(Acquire(1, 1, FIRST_ATTEMPT, ONE_KEY, ONE_POLICY, FIRST_OWNER), 0)]
  const TAKEN_OVER := GATED + [Step(TakeOver(2, 10), 10)]

  const LEASE_ROW := LeaseRow(1, 1, 0, 0, 10, true)

  lemma Leased()
    ensures DisciplinedRun(LEASED) && Run(LEASED) == EMPTY_DB.(lease := Some(LEASE_ROW))
  {
    hide Inv, AcquireLease;
    EmptyHolds();
    AcquireLeaseTotal(EMPTY_DB, 1, 0, 10);
    assert DisciplinedRun([]);
    assert LEASED == [] + [Step(TakeLease(1, 10), 0)];
    OneMoreCall([], Step(TakeLease(1, 10), 0));
  }

  lemma EmptyQueue()
    ensures !QueueFull(map[], 1, 1, QueuePolicy(1, 1, 1))
  {
    hide Depth;
    DepthBound(map[], None, None);
    DepthBound(map[], Some(1), None);
    DepthBound(map[], Some(1), Some(1));
  }

  lemma DepthBound(queue: Queue, domain: Option<Id>, task: Option<Id>)
    ensures Depth(queue, domain, task) <= |queue|
  {
    SubsetSize(Queueing(queue, domain, task), queue.Keys);
  }

  lemma Admitted()
    ensures DisciplinedRun(ADMITTED)
    ensures var db := Run(ADMITTED);
            && db.lease == Some(LEASE_ROW) && db.queue == map[1 := Entry(1, 1, 0, InQueue)] && db.attempts == map[]
            && db.gates == map[] && db.starts == map[] && db.reservations == map[] && db.scopes == map[]
            && Queued(db.requests, 1)
  {
    hide Inv, Admit, OpenFlight, QueueFull, Run, DisciplinedRun;
    Leased();
    RunHolds(LEASED);
    var db, s := Run(LEASED), Step(AdmitRequest(1, 1, 1, 1, FIRST_OWNER, QueuePolicy(1, 1, 1)), 0);
    var limits := QueuePolicy(1, 1, 1);
    AdmitTotal(db, 1, 1, 1, 1, FIRST_OWNER, 0, limits);
    AdmitBranches(db, 1, 1, 1, 1, FIRST_OWNER, 0, limits);
    var added := db.(requests := db.requests[1 := Request(1, 1, ReqQueued)]);
    EmptyQueue();
    OpenedTables(added, 1, 1, 1, 1, 0, limits);
    OneMoreCall(LEASED, s);
  }

  lemma Claimed()
    ensures DisciplinedRun(CLAIMED)
    ensures var db := Run(CLAIMED);
            && db.lease == Some(LEASE_ROW) && db.queue == map[1 := Entry(1, 1, 0, Dequeued)] && db.attempts == map[]
            && db.gates == map[] && db.starts == map[] && db.reservations == map[] && db.scopes == map[]
            && Queued(db.requests, 1)
  {
    hide Inv, Claim, Run, DisciplinedRun;
    Admitted();
    var db, s := Run(ADMITTED), Step(ClaimNext(1, FIRST_OWNER), 0);
    OneWaiting(db);
    ClaimPicks(db, 1, FIRST_OWNER, 0);
    OneMoreCall(ADMITTED, s);
  }

  lemma OneWaiting(db: Db)
    requires db.lease == Some(LEASE_ROW) && db.queue == map[1 := Entry(1, 1, 0, InQueue)]
    ensures Claim(db, 1, FIRST_OWNER, 0).Commit? && Claim(db, 1, FIRST_OWNER, 0).value.Some?
  {
    assert 1 in db.queue && db.queue[1].domain == 1 && db.queue[1].state == InQueue;
    assert db.queue[1].task in QueuedTasks(db.queue, 1);
  }

  // Gates without holders, cooldowns, or too many starts let a new attempt pass.
  lemma {:induction false} GatesFree(order: seq<Scope>, db: Db, now: Time)
    requires forall k :: GateOf(db.gates, k).active == 0 && GateOf(db.gates, k).cooldown.None?
    requires forall k :: GateOf(db.gates, k).lastStarted.Some? ==> GateOf(db.gates, k).lastStarted.value <= now
    requires forall k :: |StartsOf(db.starts, k)| <= 1
    ensures FirstBlocked(order, db, ONE_KEY, ONE_POLICY, now).None?
  {
    if order != [] {
      EveryScope(order[0]);
      FewStarts(StartsOf(db.starts, GateKey(order[0], ONE_KEY[order[0]])), now - 1);
      GatesFree(order[1..], db, now);
    }
  }

  lemma FewStarts(times: seq<Time>, cutoff: Time)
    requires |times| <= 1
    ensures CountAfter(times, cutoff) <= 1
  {
  }

  lemma NoNumbers(attempts: Attempts)
    requires attempts == map[]
    ensures NextNumber(attempts, 1) == 1
  {
    assert (set a | a in attempts && attempts[a].request == 1 :: attempts[a].number) == {};
  }

  lemma Gated()
    ensures DisciplinedRun(GATED)
    ensures var db := Run(GATED);
            && db.lease == Some(LEASE_ROW) && db.attempts == map[1 := FIRST_ATTEMPT]
            && db.reservations == map[1 := Reservation(1, 1, 1, 0, Holding)] && db.scopes == map[1 := ONE_KEY]
            && db.gates == Raised(map[], KeySet(ONE_KEY), 0) && db.starts == WithStart(map[], KeySet(ONE_KEY), 0)
  {
    hide Inv, AcquireGates, FirstBlocked, Raised, WithStart, KeySet, NextNumber, Run, DisciplinedRun;
    Claimed();
    var db, s := Run(CLAIMED), Step(Acquire(1, 1, FIRST_ATTEMPT, ONE_KEY, ONE_POLICY, FIRST_OWNER), 0);
    NoNumbers(db.attempts);
    GatesFree(SCOPE_ORDER, db, 0);
    AcquireCommits(db);
    AcquireFacts(db, 1, 1, FIRST_ATTEMPT, ONE_KEY, ONE_POLICY, FIRST_OWNER, 0);
    OneMoreCall(CLAIMED, s);
  }

  lemma AcquireCommits(db: Db)
    requires db.lease == Some(LEASE_ROW) && db.queue == map[1 := Entry(1, 1, 0, Dequeued)] && db.attempts == map[]
    requires db.reservations == map[] && db.scopes == map[] && Queued(db.requests, 1)
    requires NextNumber(db.attempts, 1) == 1 && FirstBlocked(SCOPE_ORDER, db, ONE_KEY, ONE_POLICY, 0).None?
    ensures AcquireGates(db, 1, 1, FIRST_ATTEMPT, ONE_KEY, ONE_POLICY, FIRST_OWNER, 0).Commit?
  {
    hide FirstBlocked, NextNumber, Raised, WithStart, KeySet;
  }

  lemma TakenOver()
    ensures DisciplinedRun(TAKEN_OVER)
    ensures var db := Run(TAKEN_OVER);
            && db.lease == Some(LeaseRow(2, 2, 10, 10, 20, true)) && db.attempts == map[1 := FIRST_ATTEMPT.(generation := 2)]
            && Stranded(db, 1)
            && 2 !in db.reservations && 2 !in db.scopes
            && FirstBlocked(SCOPE_ORDER, db, ONE_KEY, ONE_POLICY, 10).None?
  {
    hide Inv, RecoverLease, CalmGates, RequeuedOnly, Raised, WithStart, KeySet, Stranded, FirstBlocked, Evolves, Run, DisciplinedRun,
         InterruptAttempts;
    Gated();
    RunHolds(GATED);
    var db, s := Run(GATED), Step(TakeOver(2, 10), 10);
    RecoverTotal(db, 2, 10, 10);
    RecoverEvolves(db, 2, 10, 10);
    OneMoreCall(GATED, s);
    var after := Run(TAKEN_OVER);
    FirstInterrupted();
    LeftStranded(db, after);
    RunHolds(TAKEN_OVER);
    RecoverReservations(db, 2, 10, 10);
    CalmFree(db, after);
  }

  lemma FirstInterrupted()
    ensures InterruptAttempts(map[1 := FIRST_ATTEMPT], 1) == map[1 := FIRST_ATTEMPT.(generation := 2)]
  {
  }

  lemma LeftStranded(db: Db, after: Db)
    requires Evolves(db, after) && CalmGates(db, after)
    requires db.reservations == map[1 := Reservation(1, 1, 1, 0, Holding)]
    requires after.attempts == map[1 := FIRST_ATTEMPT.(generation := 2)]
    ensures Stranded(after, 1)
  {
    assert 1 in after.reservations && after.reservations[1].attempt == 1;
    assert forall v :: v in after.reservations && after.reservations[v].state == Holding ==> v in HeldBy(after.reservations);
  }

  lemma RecoverReservations(db: Db, owner: Id, now: Time, duration: nat)
    requires Inv(db) && RecoverLease(db, owner, now, duration).Commit?
    ensures RecoverLease(db, owner, now, duration).db.reservations.Keys == db.reservations.Keys
    ensures RecoverLease(db, owner, now, duration).db.scopes == db.scopes
  {
    hide Inv, RecoverLease, Reconcile, Deliver, LeaderFinished, Lowered, Requeue, InterruptAttempts;
    var g := GenerationOf(db.lease);
    var interrupted := Interrupt(db, g, now);
    var done := set fp | fp in interrupted.flights && interrupted.flights[fp].active && LeaderFinished(interrupted, fp);
    RecoverIs(db, owner, now, duration);
    ReconcileFrame(interrupted, done);
    DeliverFrame(interrupted, done);
    assert interrupted.reservations.Keys == db.reservations.Keys;
  }

  lemma CalmFree(db: Db, after: Db)
    requires CalmGates(db, after)
    requires db.gates == Raised(map[], KeySet(ONE_KEY), 0) && db.starts == WithStart(map[], KeySet(ONE_KEY), 0)
    ensures FirstBlocked(SCOPE_ORDER, after, ONE_KEY, ONE_POLICY, 10).None?
  {
    hide KeySet, FirstBlocked;
    forall k
      ensures GateOf(after.gates, k).active == 0 && GateOf(after.gates, k).cooldown.None?
      ensures GateOf(after.gates, k).lastStarted.Some? ==> GateOf(after.gates, k).lastStarted.value <= 10
      ensures |StartsOf(after.starts, k)| <= 1
    {
      CountIs(after.gates, k);
      assert ActiveCount(after.gates, k) == 0;
    }
    GatesFree(SCOPE_ORDER, after, 10);
  }

  /** After this run a second attempt, started and then cancelled, makes every later takeover stop at an audit gap:
      recovery is total only because callers do not do this. */
  lemma HazardReached(reason: Id, owner: Id, end: Time, duration: nat)
    requires 20 <= end
    ensures DisciplinedRun(TAKEN_OVER)
    ensures var acquired := AcquireGates(Run(TAKEN_OVER), 2, 2, SECOND_ATTEMPT, ONE_KEY, ONE_POLICY, SECOND_OWNER, 10);
            && acquired.Commit?
            && var started := MarkStarted(acquired.db, 2, SECOND_OWNER, 10);
            && started.Commit?
            && var cancelled := Cancel(started.db, 1, reason, SECOND_OWNER, 10);
            && cancelled.Commit?
            && RecoverLease(cancelled.db, owner, end, duration) == Abort(AuditGap)
  {
    hide Inv, Run, DisciplinedRun, Stranded, FirstBlocked, AcquireGates, MarkStarted, Cancel, RecoverLease, NextNumber;
    TakenOver();
    RunHolds(TAKEN_OVER);
    var db := Run(TAKEN_OVER);
    SecondNumber(db.attempts);
    SecondAttemptBlocksRecovery(db, 1, 2, 2, SECOND_ATTEMPT, ONE_KEY, ONE_POLICY, SECOND_OWNER, 10, reason, 10, owner, end, duration);
  }

  lemma SecondNumber(attempts: Attempts)
    requires attempts == map[1 := FIRST_ATTEMPT.(generation := 2)]
    ensures NextNumber(attempts, 1) == 2 && !HasSentAttempt(attempts, 1)
  {
    var numbers := set a | a in attempts && attempts[a].request == 1 :: attempts[a].number;
    assert attempts[1].number in numbers;
    assert numbers == {1};
  }
}
