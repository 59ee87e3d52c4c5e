/** What callers see of admission, claiming, the end of an attempt and recovery: exactly who gets what, and nobody else. */
module Effects {
  import opened Basics
  import opened Tables
  import opened Transactions
  import opened Invariant
  import opened GateProofs
  import opened DeliveryProofs
  import opened FlightProofs
  import opened ResultProofs
  import opened AttemptProofs
  import opened EndProofs
  import opened CancelProofs
  import opened RecoveryProofs
  import opened Evolution
  import opened Runs
  import opened OneByOne

  // ---------------------------------------------------------------- admission

  // The rows of all other requests are as before.
  ghost predicate OnlyRequest(before: Db, after: Db, r: Id) {
    && after.requests - {r} == before.requests - {r} && after.results - {r} == before.results - {r}
    && after.consumers - {r} == before.consumers - {r} && after.queue - {r} == before.queue - {r}
    && after.attempts == before.attempts && after.reservations == before.reservations && after.gates == before.gates
    && after.starts == before.starts && after.scopes == before.scopes && after.cursors == before.cursors && after.lease == before.lease
  }

  // The entries in the queue: all of them, those of one domain, and those of one task in it.
  ghost function InLine(queue: Queue): set<Id> {
    set q | q in queue && queue[q].state == InQueue
  }

  ghost function InDomain(queue: Queue, domain: Id): set<Id> {
    set q | q in queue && queue[q].state == InQueue && queue[q].domain == domain
  }

  ghost function OfTask(queue: Queue, domain: Id, task: Id): set<Id> {
    set q | q in queue && queue[q].state == InQueue && queue[q].domain == domain && queue[q].task == task
  }

  ghost predicate WithinLimits(queue: Queue, domain: Id, task: Id, limits: QueuePolicy) {
    && |InLine(queue)| <= limits.globalLimit && |InDomain(queue, domain)| <= limits.domainLimit
    && |OfTask(queue, domain, task)| <= limits.taskLimit
  }

  // One of the three limits is reached.
  ghost predicate LimitReached(queue: Queue, domain: Id, task: Id, limits: QueuePolicy) {
    || limits.globalLimit <= |InLine(queue)| || limits.domainLimit <= |InDomain(queue, domain)|
    || limits.taskLimit <= |OfTask(queue, domain, task)|
  }

  lemma DepthsAre(queue: Queue, domain: Id, task: Id)
    ensures Depth(queue, None, None) == |InLine(queue)| && Depth(queue, Some(domain), None) == |InDomain(queue, domain)|
    ensures Depth(queue, Some(domain), Some(task)) == |OfTask(queue, domain, task)|
  {
    assert Queueing(queue, None, None) == InLine(queue);
    assert Queueing(queue, Some(domain), None) == InDomain(queue, domain);
    assert Queueing(queue, Some(domain), Some(task)) == OfTask(queue, domain, task);
  }

  // What admission does with the new request `r`.
  ghost predicate AdmittedAs(db: Db, after: Db, r: Id, task: Id, fp: Id, domain: Id, now: Time, limits: QueuePolicy, how: Admission) {
    && r in after.consumers && r in after.requests && fp in after.flights
    && match how
       case AsFollower(leader) =>
         && after.flights == db.flights && db.flights[fp] == Flight(leader, true)
         && after.consumers[r] == ConsumerRow(fp, Follower, Active, domain, now)
         && after.requests[r] == Request(task, fp, ReqQueued)
         && r !in after.queue && r !in after.results
       case AsLeader =>
         && !(fp in db.flights && db.flights[fp].active) && after.flights == db.flights[fp := Flight(r, true)]
         && after.consumers[r] == ConsumerRow(fp, Leader, Active, domain, now)
         && r in after.queue && after.queue[r] == Entry(domain, task, now, InQueue) && r !in after.results
         && after.requests[r] == Request(task, fp, ReqQueued)
         && !LimitReached(db.queue, domain, task, limits) && WithinLimits(after.queue, domain, task, limits)
       case QueueRejected =>
         && !(fp in db.flights && db.flights[fp].active) && after.flights == db.flights[fp := Flight(r, false)]
         && after.consumers[r] == ConsumerRow(fp, Leader, Left, domain, now)
         && r in after.queue && after.queue[r] == Entry(domain, task, now, Rejected)
         && r in after.results && after.results[r] == Result(OutFailed, now, Some(QUEUE_FULL))
         && after.requests[r] == Request(task, fp, ReqFailed) && LimitReached(db.queue, domain, task, limits)
  }

  /** A request whose fingerprint is in flight follows the leader, unqueued; otherwise it opens a flight and is queued, with
      the depths then within the limits, or is failed at once because one of them was reached. Nobody else is affected. */
  lemma AdmitAffects(db: Db, r: Id, task: Id, fp: Id, domain: Id, token: Token, now: Time, limits: QueuePolicy)
    requires Inv(db) && Admit(db, r, task, fp, domain, token, now, limits).Commit?
    ensures var tx := Admit(db, r, task, fp, domain, token, now, limits);
            AdmittedAs(db, tx.db, r, task, fp, domain, now, limits, tx.value) && OnlyRequest(db, tx.db, r)
  {
    hide Inv, Admit, Fence, QueueFull, JoinFlight, OpenFlight, AdmittedAs, OnlyRequest;
    AdmitGuard(db, r, task, fp, domain, token, now, limits);
    AdmitTotal(db, r, task, fp, domain, token, now, limits);
    AdmitBranches(db, r, task, fp, domain, token, now, limits);
    NewRows(db, r);
    if fp in db.flights && db.flights[fp].active {
      JoinAffects(db, r, task, fp, domain, now, limits);
    } else {
      OpenAffects(db, r, task, fp, domain, now, limits);
    }
  }

  lemma NewRows(db: Db, r: Id)
    requires Inv(db) && r !in db.requests
    ensures r !in db.results && r !in db.consumers && r !in db.queue
  {
    hide FlightsOk, OwnersOk, AttemptsOk, OneActive, ReservationsOk, Accounting, HoldingsOk, StartsOk, SuccessOk, EpisodesOk,
         SendersOk, LeadersQueued;
  }

  lemma JoinAffects(db: Db, r: Id, task: Id, fp: Id, domain: Id, now: Time, limits: QueuePolicy)
    requires r !in db.requests && r !in db.results && r !in db.consumers && r !in db.queue && fp in db.flights && db.flights[fp].active
    requires JoinFlight(db.(requests := db.requests[r := Request(task, fp, ReqQueued)]), r, fp, domain, now).Commit?
    ensures var tx := JoinFlight(db.(requests := db.requests[r := Request(task, fp, ReqQueued)]), r, fp, domain, now);
            AdmittedAs(db, tx.db, r, task, fp, domain, now, limits, tx.value) && OnlyRequest(db, tx.db, r)
  {
  }

  lemma OpenAffects(db: Db, r: Id, task: Id, fp: Id, domain: Id, now: Time, limits: QueuePolicy)
    requires r !in db.requests && r !in db.results && r !in db.consumers && r !in db.queue
    requires !(fp in db.flights && db.flights[fp].active)
    requires OpenFlight(db.(requests := db.requests[r := Request(task, fp, ReqQueued)]), r, task, fp, domain, now, limits).Commit?
    ensures var tx := OpenFlight(db.(requests := db.requests[r := Request(task, fp, ReqQueued)]), r, task, fp, domain, now, limits);
            AdmittedAs(db, tx.db, r, task, fp, domain, now, limits, tx.value) && OnlyRequest(db, tx.db, r)
  {
    var added := db.(requests := db.requests[r := Request(task, fp, ReqQueued)]);
    OpenValue(added, r, task, fp, domain, now, limits);
    FullIff(db.queue, domain, task, limits);
    hide Close, OpenFlight, QueueFull, WithinLimits, LimitReached, AdmittedAs, OnlyRequest;
    if QueueFull(db.queue, domain, task, limits) {
      RejectedIs(db, r, task, fp, domain, now, limits);
      RejectedRows(db, r, task, fp, domain, now, limits, OpenFlight(added, r, task, fp, domain, now, limits).db);
    } else {
      OpenedTables(added, r, task, fp, domain, now, limits);
      RoomLeft(db.queue, r, domain, task, now, limits);
      OpenedRows(db, r, task, fp, domain, now, limits, OpenFlight(added, r, task, fp, domain, now, limits).db);
    }
  }

  lemma FullIff(queue: Queue, domain: Id, task: Id, limits: QueuePolicy)
    ensures QueueFull(queue, domain, task, limits) <==> LimitReached(queue, domain, task, limits)
  {
    DepthsAre(queue, domain, task);
  }

  lemma OpenedRows(db: Db, r: Id, task: Id, fp: Id, domain: Id, now: Time, limits: QueuePolicy, after: Db)
    requires r !in db.requests && r !in db.results && r !in db.consumers && r !in db.queue
    requires !(fp in db.flights && db.flights[fp].active)
    requires !LimitReached(db.queue, domain, task, limits)
    requires WithinLimits(db.queue[r := Entry(domain, task, now, InQueue)], domain, task, limits)
    requires after == db.(requests := db.requests[r := Request(task, fp, ReqQueued)], flights := db.flights[fp := Flight(r, true)],
                          queue := db.queue[r := Entry(domain, task, now, InQueue)], audited := after.audited, history := after.history,
                          consumers := db.consumers[r := ConsumerRow(fp, Leader, Active, domain, now)])
    ensures AdmittedAs(db, after, r, task, fp, domain, now, limits, AsLeader) && OnlyRequest(db, after, r)
  {
    hide WithinLimits, LimitReached;
  }

  lemma RejectedRows(db: Db, r: Id, task: Id, fp: Id, domain: Id, now: Time, limits: QueuePolicy, after: Db)
    requires r !in db.requests && r !in db.results && r !in db.consumers && r !in db.queue
    requires !(fp in db.flights && db.flights[fp].active) && LimitReached(db.queue, domain, task, limits)
    requires after == db.(requests := db.requests[r := Request(task, fp, ReqFailed)],
                          results := db.results[r := Result(OutFailed, now, Some(QUEUE_FULL))],
                          flights := db.flights[fp := Flight(r, false)],
                          queue := db.queue[r := Entry(domain, task, now, Rejected)], audited := after.audited, history := after.history,
                          consumers := db.consumers[r := ConsumerRow(fp, Leader, Left, domain, now)])
    ensures AdmittedAs(db, after, r, task, fp, domain, now, limits, QueueRejected) && OnlyRequest(db, after, r)
  {
    hide LimitReached;
  }

  lemma RejectedIs(db: Db, r: Id, task: Id, fp: Id, domain: Id, now: Time, limits: QueuePolicy)
    requires r !in db.requests && r !in db.results && QueueFull(db.queue, domain, task, limits)
    requires OpenFlight(db.(requests := db.requests[r := Request(task, fp, ReqQueued)]), r, task, fp, domain, now, limits).Commit?
    ensures var after := OpenFlight(db.(requests := db.requests[r := Request(task, fp, ReqQueued)]), r, task, fp, domain, now, limits).db;
            after == db.(requests := db.requests[r := Request(task, fp, ReqFailed)],
                         results := db.results[r := Result(OutFailed, now, Some(QUEUE_FULL))],
                         flights := db.flights[fp := Flight(r, false)],
                         queue := db.queue[r := Entry(domain, task, now, Rejected)], audited := after.audited, history := after.history,
                         consumers := db.consumers[r := ConsumerRow(fp, Leader, Left, domain, now)])
  {
    hide OpenFlight, QueueFull, CloseRequests, CloseResults;
    var added := db.(requests := db.requests[r := Request(task, fp, ReqQueued)]);
    RejectedTables(added, r, task, fp, domain, now, limits);
    ClosedRows(db, r, Request(task, fp, ReqQueued), Result(OutFailed, now, Some(QUEUE_FULL)));
  }

  lemma ClosedRows(db: Db, r: Id, request: Request, result: Result)
    requires r !in db.requests && r !in db.results
    ensures var after := Close(db.(requests := db.requests[r := request]), {r}, result);
            && after.requests == db.requests[r := request.(state := StateOf(result.kind))] && after.results == db.results[r := result]
            && after == db.(requests := after.requests, results := after.results)
  {
    assert CloseResults(db.results, {r}, result).Keys == db.results.Keys + {r};
  }

  lemma OpenValue(db: Db, r: Id, task: Id, fp: Id, domain: Id, now: Time, limits: QueuePolicy)
    requires OpenFlight(db, r, task, fp, domain, now, limits).Commit?
    ensures OpenFlight(db, r, task, fp, domain, now, limits).value == if QueueFull(db.queue, domain, task, limits) then QueueRejected else AsLeader
  {
    hide QueueFull, CloseRequests, CloseResults, Closable;
  }

  lemma RoomLeft(queue: Queue, r: Id, domain: Id, task: Id, now: Time, limits: QueuePolicy)
    requires r !in queue && !QueueFull(queue, domain, task, limits)
    ensures WithinLimits(queue[r := Entry(domain, task, now, InQueue)], domain, task, limits)
  {
    var after := queue[r := Entry(domain, task, now, InQueue)];
    OneDeeper(queue, r, after[r], None, None);
    OneDeeper(queue, r, after[r], Some(domain), None);
    OneDeeper(queue, r, after[r], Some(domain), Some(task));
    DepthsAre(after, domain, task);
    hide Depth;
  }

  lemma OneDeeper(queue: Queue, r: Id, entry: Entry, domain: Option<Id>, task: Option<Id>)
    requires r !in queue && entry.state == InQueue
    ensures Depth(queue[r := entry], domain, task) <= Depth(queue, domain, task) + 1
  {
    var before, after := Queueing(queue, domain, task), Queueing(queue[r := entry], domain, task);
    assert after - {r} == before;
    assert after <= before + {r};
    SubsetSize(after, before + {r});
  }

  // ---------------------------------------------------------------- claiming

  // Where an entry waits.
  predicate Queues(queue: Queue, q: Id, domain: Id, task: Id) {
    q in queue && queue[q].state == InQueue && queue[q].domain == domain && queue[q].task == task
  }

  /** A claim takes nothing exactly if nothing waits in the domain. Otherwise it takes the entry that waited longest of the
      first waiting task after the cursor, going round; and only that entry changes. */
  lemma ClaimAffects(db: Db, domain: Id, token: Token, now: Time)
    requires Claim(db, domain, token, now).Commit?
    ensures var tx := Claim(db, domain, token, now);
            var cursor := Lookup(db.cursors, domain);
            match tx.value
            case None => tx.db == db && forall q: Id, t: Id :: !Queues(db.queue, q, domain, t)
            case Some(r) =>
              && r in db.queue && Queues(db.queue, r, domain, db.queue[r].task)
              && tx.db == db.(queue := db.queue[r := db.queue[r].(state := Dequeued)], cursors := db.cursors[domain := db.queue[r].task])
              && (forall q :: Queues(db.queue, q, domain, db.queue[r].task) ==>
                    db.queue[r].enqueuedAt < db.queue[q].enqueuedAt || (db.queue[r].enqueuedAt == db.queue[q].enqueuedAt && r <= q))
              && (forall q: Id, t: Id :: Queues(db.queue, q, domain, t) && (cursor.None? || cursor.value < t) ==>
                    (cursor.None? || cursor.value < db.queue[r].task) && db.queue[r].task <= t)
              && (forall q: Id, t: Id :: Queues(db.queue, q, domain, t) && cursor.Some? && db.queue[r].task <= cursor.value ==>
                    t <= cursor.value && db.queue[r].task <= t)
  {
    WaitingTasks(db.queue, domain);
    if Claim(db, domain, token, now).value.Some? {
      ClaimPicks(db, domain, token, now);
      ClaimChooses(db, domain, token, now);
      var task := db.queue[Claim(db, domain, token, now).value.value].task;
      assert forall q :: Queues(db.queue, q, domain, task) ==> q in QueuedOf(db.queue, domain, task);
      hide NextTask, Claim;
    } else {
      hide NextTask;
    }
  }

  lemma WaitingTasks(queue: Queue, domain: Id)
    ensures forall q: Id, t: Id :: Queues(queue, q, domain, t) ==> t in QueuedTasks(queue, domain)
  {
  }

  lemma ClaimChooses(db: Db, domain: Id, token: Token, now: Time)
    requires Claim(db, domain, token, now).Commit? && Claim(db, domain, token, now).value.Some?
    ensures var r := Claim(db, domain, token, now).value.value;
            && QueuedTasks(db.queue, domain) != {} && r in db.queue
            && db.queue[r].task == NextTask(QueuedTasks(db.queue, domain), Lookup(db.cursors, domain))
            && r in QueuedOf(db.queue, domain, db.queue[r].task)
            && forall q :: q in QueuedOf(db.queue, domain, db.queue[r].task) ==> Before(EnqueueTimes(db.queue), r, q)
  {
    hide NextTask;
  }

  // ---------------------------------------------------------------- leases and single attempts

  /** After a heartbeat the fence lets through exactly the copies of this owner and generation, exactly during the new term. */
  lemma HeartbeatAffects(db: Db, token: Token, now: Time, duration: nat, other: Token, later: Time)
    requires Heartbeat(db, token, now, duration).Commit?
    ensures var after := Heartbeat(db, token, now, duration).db;
            Fence(after.lease, other, later).None?
            <==> other.owner == token.owner && other.generation == token.generation && now <= later < now + duration
  {
  }

  /** After a release the fence lets nobody through, and whoever asks next gets the lease under the next generation. */
  lemma ReleaseAffects(db: Db, token: Token, now: Time, other: Token, later: Time, owner: Id, duration: nat)
    requires Inv(db) && ReleaseLease(db, token, now).Commit?
    ensures var after := ReleaseLease(db, token, now).db;
            && Fence(after.lease, other, later).Some?
            && AcquireLease(after, owner, later, duration).Commit?
            && AcquireLease(after, owner, later, duration).value.generation == token.generation + 1
  {
    GiveUpKeepsInv(db, token, now);
    hide Inv;
    var after := ReleaseLease(db, token, now).db;
    AcquireLeaseTotal(after, owner, later, duration);
    AcquiredToken(after, owner, later, duration);
  }

  lemma AcquiredToken(db: Db, owner: Id, now: Time, duration: nat)
    requires AcquireLease(db, owner, now, duration).Commit?
    ensures AcquireLease(db, owner, now, duration).value == Token(owner, GenerationOf(db.lease) + 1, now, now + duration)
  {
    hide Reconcile;
  }

  /** Discarding a reserved attempt that never reached the gates undoes its reservation: all tables are as before, so the next
      attempt gets the same number. */
  lemma DiscardUndoesReserve(db: Db, a: Id, r: Id, token: Token, now: Time, later: Time)
    requires Inv(db) && ReserveAttempt(db, a, r, token, now).Commit? && Fence(db.lease, token, later).None?
    ensures DiscardAttempt(ReserveAttempt(db, a, r, token, now).db, a, token, later) == Commit(db, ())
  {
    hide Inv, ReserveAttempt, DiscardAttempt, NextNumber, Fence, HasReservation;
    ReserveFacts(db, a, r, token, now);
    Unreserved(db, a);
    DiscardNew(db, a, ReserveAttempt(db, a, r, token, now).value, token, later);
  }

  lemma DiscardNew(db: Db, a: Id, attempt: Attempt, token: Token, now: Time)
    requires a !in db.attempts && attempt.state == Reserved && attempt.generation == token.generation
    requires !HasReservation(db.reservations, a) && Fence(db.lease, token, now).None?
    ensures DiscardAttempt(db.(attempts := db.attempts[a := attempt]), a, token, now) == Commit(db, ())
  {
    hide HasReservation, Fence;
    assert db.attempts[a := attempt] - {a} == db.attempts;
  }

  lemma Unreserved(db: Db, a: Id)
    requires Inv(db) && a !in db.attempts
    ensures !HasReservation(db.reservations, a)
  {
    hide RequestsOk, ConsumersOk, FlightsOk, QueueOk, OwnersOk, AttemptsOk, OneActive, Accounting, HoldingsOk, StartsOk, SuccessOk,
         EpisodesOk, SendersOk, LeadersQueued;
  }

  /** Once an attempt is marked started it can be neither marked again nor discarded, its request can reserve no other, and
      cancelling that request counts it as possibly sent. */
  lemma MarkAffects(db: Db, a: Id, token: Token, now: Time, b: Id, other: Token, later: Time)
    requires MarkStarted(db, a, token, now).Commit?
    ensures var after := MarkStarted(db, a, token, now).db;
            && a in after.attempts && MayHaveBeenSent(after.attempts, after.attempts[a].request)
            && MarkStarted(after, a, other, later).Abort? && DiscardAttempt(after, a, other, later).Abort?
            && ReserveAttempt(after, b, after.attempts[a].request, other, later).Abort?
  {
    var after := MarkStarted(db, a, token, now).db;
    hide NextNumber, Fence;
    assert a in after.attempts && after.attempts[a].state == Started;
    assert HasStartedAttempt(after.attempts, after.attempts[a].request);
    assert HasActiveAttempt(after.attempts, after.attempts[a].request);
  }

  // ---------------------------------------------------------------- gates

  lemma ScopeListed(s: Scope)
    ensures s in SCOPE_ORDER
  {
    match s
    case Global => assert SCOPE_ORDER[0] == s;
    case Egress => assert SCOPE_ORDER[1] == s;
    case Provider => assert SCOPE_ORDER[2] == s;
    case Origin => assert SCOPE_ORDER[3] == s;
    case Credential => assert SCOPE_ORDER[4] == s;
    case Operation => assert SCOPE_ORDER[5] == s;
    case TaskScope => assert SCOPE_ORDER[6] == s;
    case RoleScope => assert SCOPE_ORDER[7] == s;
  }

  function Later(cooldown: Option<Time>, deadline: Time): Option<Time> {
    if cooldown.Some? && deadline <= cooldown.value then cooldown else Some(deadline)
  }

  // The gate `k` after the reservation with these scopes ended, with this retry-after.
  ghost predicate GateAfter(before: Gate, after: Gate, held: map<Scope, Id>, k: GateKey, deadline: Option<Time>) {
    && before.active == after.active + (if k.scope in held && held[k.scope] == k.alias then 1 else 0)
    && after.lastStarted == before.lastStarted
    && after.cooldown == if deadline.Some? && k.scope == Provider && Provider in held && held[Provider] == k.alias
                         then Later(before.cooldown, deadline.value)
                         else before.cooldown
  }

  /** Ending an attempt gives back one holder on exactly its eight gates, prolongs the cooldown of its provider alone, and
      records the outcome; a cooldown is never shortened. */
  lemma FinishAffects(db: Db, v: Id, a: Id, r: Id, outcome: Outcome, retryAfter: Option<nat>, raw: bool, token: Token, now: Time)
    requires Inv(db) && FinishGates(db, v, a, r, outcome, retryAfter, raw, token, now).Commit?
    ensures a in db.attempts && v in db.reservations && v in db.scopes
    ensures var after := FinishGates(db, v, a, r, outcome, retryAfter, raw, token, now).db;
            var deadline := if retryAfter.Some? then Some(now + retryAfter.value) else None;
            && after == db.(gates := after.gates, reservations := db.reservations[v := db.reservations[v].(state := Released)],
                            attempts := db.attempts[a := db.attempts[a].(state := outcome, rawEligible := raw)])
            && forall k :: GateAfter(GateOf(db.gates, k), GateOf(after.gates, k), db.scopes[v], k, deadline)
  {
    hide Inv, FinishGates, Fence, Lowered, CoolDown, Settle, GateAfter, HoldsRecord;
    FinishGuard(db, v, a, r, outcome, retryAfter, raw, token, now);
    FinishTotal(db, v, a, r, outcome, retryAfter, raw, token, now);
    FinishBranches(db, v, a, r, outcome, retryAfter, raw, token, now);
    HeldRow(db, v, a, r, token.generation);
    SettledRow(db.reservations, v);
    forall k
      ensures GateAfter(GateOf(db.gates, k), GateOf(FinishGates(db, v, a, r, outcome, retryAfter, raw, token, now).db.gates, k),
                        db.scopes[v], k, if retryAfter.Some? then Some(now + retryAfter.value) else None)
    {
      CooledRow(db.gates, db.scopes, v, k, if retryAfter.Some? then Some(now + retryAfter.value) else None);
    }
  }

  lemma HeldRow(db: Db, v: Id, a: Id, r: Id, g: nat)
    requires Inv(db) && HoldsRecord(db, v, a, r, g)
    ensures v in db.reservations && v in db.scopes && a in db.attempts && Provider in db.scopes[v]
    ensures forall k :: HoldsKey(db.scopes[v], k) ==> k in db.gates && 1 <= db.gates[k].active
  {
    hide RequestsOk, ConsumersOk, FlightsOk, QueueOk, OwnersOk, AttemptsOk, OneActive, HoldingsOk, StartsOk, SuccessOk, EpisodesOk,
         SendersOk, LeadersQueued, ReservationsOk, Accounting;
    HoldingFacts(db.reservations, db.scopes, db.attempts, GenerationOf(db.lease), v);
    HeldIsReleasable(db.gates, db.reservations, db.scopes, {v});
    HeldCounts(db.gates, db.scopes, v);
    hide Releasable, HoldsKey;
  }

  lemma HeldCounts(gates: Gates, scopes: HeldScopes, v: Id)
    requires Releasable(gates, scopes, {v})
    ensures v in scopes && forall k :: HoldsKey(scopes[v], k) ==> k in gates && 1 <= gates[k].active
  {
    forall k | HoldsKey(scopes[v], k)
      ensures k in gates && 1 <= gates[k].active
    {
      assert k == GateKey(k.scope, scopes[v][k.scope]);
      OneHolder(scopes, v, k);
    }
  }

  lemma SettledRow(reservations: Reservations, v: Id)
    requires v in reservations
    ensures Settle(reservations, {v}, Released) == reservations[v := reservations[v].(state := Released)]
  {
  }

  lemma CooledRow(gates: Gates, scopes: HeldScopes, v: Id, k: GateKey, deadline: Option<Time>)
    requires v in scopes && Provider in scopes[v]
    requires forall k :: HoldsKey(scopes[v], k) ==> k in gates && 1 <= gates[k].active
    ensures var lowered := Lowered(gates, scopes, {v});
            var after := if deadline.None? then lowered else CoolDown(lowered, GateKey(Provider, scopes[v][Provider]), deadline.value);
            GateAfter(GateOf(gates, k), GateOf(after, k), scopes[v], k, deadline)
  {
    var provider := GateKey(Provider, scopes[v][Provider]);
    assert HoldsKey(scopes[v], provider);
    OneHolder(scopes, v, k);
    OneHolder(scopes, v, provider);
    hide Holders;
  }

  // ---------------------------------------------------------------- recovery

  // The result recovery gives the flight of `leader`: "unknown" if it was being sent, "unknown" or "failed" if it was
  // between two attempts, none if it never had an attempt or holds one that was not sent.
  function Interruption(db: Db, leader: Id, now: Time): Option<Result> {
    if HasStartedAttempt(db.attempts, leader) then Some(Result(OutUnknown, now, Some(OWNER_INTERRUPTED)))
    else if AttemptsOf(db.attempts, leader) != {} && !HasActiveAttempt(db.attempts, leader) then
      Some(Result(if HasUnknownAttempt(db.attempts, leader) then OutUnknown else OutFailed, now, Some(INTERRUPTED_BETWEEN_ATTEMPTS)))
    else None
  }

  // What recovery does for the active consumer `r`.
  ghost predicate RecoveredAs(db: Db, after: Db, r: Id, now: Time)
    requires r in db.consumers && db.consumers[r].fingerprint in db.flights
  {
    var fp := db.consumers[r].fingerprint;
    var leader := db.flights[fp].leader;
    && r in after.consumers && fp in after.flights
    && match Interruption(db, leader, now)
       case Some(result) =>
         r in after.results && after.results[r] == result && after.consumers[r] == db.consumers[r].(state := Completed(leader))
         && after.flights[fp] == Flight(leader, false)
       case None =>
         r !in after.results && after.consumers[r] == db.consumers[r] && after.flights[fp] == db.flights[fp]
  }

  /** Recovery ends exactly the flights whose leader was being sent or was between attempts, and gives that leader's result
      to everyone waiting; all others wait on. */
  lemma RecoverAffects(db: Db, owner: Id, now: Time, duration: nat, r: Id)
    requires Inv(db) && RecoverLease(db, owner, now, duration).Commit? && r in db.consumers && db.consumers[r].state == Active
    ensures db.consumers[r].fingerprint in db.flights
    ensures RecoveredAs(db, RecoverLease(db, owner, now, duration).db, r, now)
  {
    hide Inv, Interrupt, RecoverLease, LeaderFinished, Deliver, RecoveredAs, Interruption, Reconcile;
    var g := GenerationOf(db.lease);
    RecoverIs(db, owner, now, duration);
    var interrupted := Interrupt(db, g, now);
    var done := set fp | fp in interrupted.flights && interrupted.flights[fp].active && LeaderFinished(interrupted, fp);
    ReconcileFrame(interrupted, done);
    ActiveFlightOf(db, r);
    InterruptedAlike(db, now, r, done);
    RecoveredRow(db, Deliver(interrupted, done), RecoverLease(db, owner, now, duration).db, r, now);
  }

  lemma InterruptedAlike(db: Db, now: Time, r: Id, done: set<Id>)
    requires Inv(db) && r in db.consumers && db.consumers[r].state == Active && db.consumers[r].fingerprint in db.flights
    requires var interrupted := Interrupt(db, GenerationOf(db.lease), now);
             done == set fp | fp in interrupted.flights && interrupted.flights[fp].active && LeaderFinished(interrupted, fp)
    ensures RecoveredAs(db, Deliver(Interrupt(db, GenerationOf(db.lease), now), done), r, now)
  {
    hide Inv, Interrupt, LeaderFinished, Deliver, Interruption;
    var interrupted := Interrupt(db, GenerationOf(db.lease), now);
    var fp := db.consumers[r].fingerprint;
    ActiveFlightOf(db, r);
    ActiveFlightOf(db, db.flights[fp].leader);
    InterruptionIs(db, now, r);
    InterruptionIs(db, now, db.flights[fp].leader);
    InterruptFrame(db, GenerationOf(db.lease), now);
    FinishedIff(interrupted, fp);
    if r != db.flights[fp].leader {
      NoInterruption(db, r, now);
    }
    DeliveredRow(interrupted, done, r);
  }

  // What the invariant says of an active consumer and its leader.
  lemma ActiveFlightOf(db: Db, r: Id)
    requires Inv(db) && r in db.consumers && db.consumers[r].state == Active
    ensures var fp := db.consumers[r].fingerprint;
            && fp in db.flights && db.flights[fp].active
            && var leader := db.flights[fp].leader;
            && leader in db.consumers && db.consumers[leader].state == Active && db.consumers[leader].fingerprint == fp
            && Queued(db.requests, r) && r !in db.results
            && (r != leader ==> AttemptsOf(db.attempts, r) == {})
  {
    hide OwnersOk, OneActive, ReservationsOk, Accounting, HoldingsOk, StartsOk, SuccessOk, EpisodesOk, SendersOk;
    if AttemptsOf(db.attempts, r) != {} {
      var a :| a in AttemptsOf(db.attempts, r);
      assert r in db.queue;
    }
  }

  lemma NoInterruption(db: Db, r: Id, now: Time)
    requires AttemptsOf(db.attempts, r) == {}
    ensures Interruption(db, r, now).None?
  {
    forall a | a in db.attempts
      ensures db.attempts[a].request != r
    {
      assert a !in AttemptsOf(db.attempts, r);
    }
  }

  lemma InterruptFrame(db: Db, g: nat, now: Time)
    ensures Interrupt(db, g, now).consumers == db.consumers && Interrupt(db, g, now).flights == db.flights
  {
  }

  lemma InterruptionIs(db: Db, now: Time, r: Id)
    requires Inv(db) && Queued(db.requests, r) && r !in db.results
    ensures var interrupted := Interrupt(db, GenerationOf(db.lease), now);
            && (r in interrupted.results <==> Interruption(db, r, now).Some?)
            && (r in interrupted.results ==> interrupted.results[r] == Interruption(db, r, now).value)
            && (Queued(interrupted.requests, r) <==> Interruption(db, r, now).None?)
  {
    hide RequestsOk, ConsumersOk, FlightsOk, QueueOk, OwnersOk, OneActive, ReservationsOk, Accounting,
         HoldingsOk, StartsOk, SuccessOk, EpisodesOk, SendersOk, LeadersQueued, Lowered, Settle, Requeue, InterruptAttempts, HeldUpTo,
         AttemptsOk, Interrupt;
    var g := GenerationOf(db.lease);
    InterruptedSets(db, g, r);
    InterruptedTables(db, g, now);
    hide StartedRequests, BetweenAttempts, HasStartedAttempt, HasActiveAttempt, AttemptsOf, HasUnknownAttempt;
  }

  lemma InterruptedSets(db: Db, g: nat, r: Id)
    requires AttemptsOk(db.attempts, db.queue, db.requests, g) && Queued(db.requests, r)
    ensures r in StartedRequests(db.attempts, g) <==> HasStartedAttempt(db.attempts, r)
    ensures HasStartedAttempt(db.attempts, r) ==> HasActiveAttempt(db.attempts, r)
    ensures r in BetweenAttempts(db) <==> AttemptsOf(db.attempts, r) != {} && !HasActiveAttempt(db.attempts, r)
  {
    if HasStartedAttempt(db.attempts, r) {
      var a :| a in db.attempts && db.attempts[a].request == r && db.attempts[a].state == Started;
      assert IsActive(db.attempts[a].state);
    }
    if AttemptsOf(db.attempts, r) != {} && !HasActiveAttempt(db.attempts, r) {
      var a :| a in AttemptsOf(db.attempts, r);
      assert !IsActive(db.attempts[a].state);
    }
    if r in BetweenAttempts(db) {
      var a :| a in db.attempts && !IsActive(db.attempts[a].state) && !HasActiveAttempt(db.attempts, db.attempts[a].request)
               && db.attempts[a].request == r;
      assert a in AttemptsOf(db.attempts, r);
    }
  }

  lemma FinishedIff(db: Db, fp: Id)
    requires fp in db.flights && db.flights[fp].active
    requires Queued(db.requests, db.flights[fp].leader) <==> db.flights[fp].leader !in db.results
    ensures LeaderFinished(db, fp) <==> db.flights[fp].leader in db.results
  {
  }

  lemma RecoveredRow(db: Db, middle: Db, after: Db, r: Id, now: Time)
    requires r in db.consumers && db.consumers[r].fingerprint in db.flights
    requires RecoveredAs(db, middle, r, now)
    requires after.consumers == middle.consumers && after.flights == middle.flights && after.results == middle.results
    ensures RecoveredAs(db, after, r, now)
  {
  }
}
