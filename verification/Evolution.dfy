/** What no transaction ever undoes: results, terminal attempts, start times, cooldowns, generations. */
module Evolution {
  import opened Basics
  import opened Tables
  import opened Transactions
  import opened Invariant
  import opened FlightProofs
  import opened ResultProofs
  import opened AttemptProofs
  import opened CancelProofs
  import opened RecoveryProofs

  ghost predicate ResultsKept(before: Results, after: Results) {
    forall r :: r in before ==> r in after && after[r] == before[r]
  }

  ghost predicate RequestsKept(before: Requests, after: Requests) {
    forall r :: r in before ==>
      && r in after && after[r].task == before[r].task && after[r].fingerprint == before[r].fingerprint
      && (before[r].state != ReqQueued ==> after[r].state == before[r].state)
  }

  ghost predicate ConsumersKept(before: Consumers, after: Consumers) {
    forall r :: r in before ==>
      && r in after && after[r].fingerprint == before[r].fingerprint && after[r].domain == before[r].domain
      && (before[r].state != Active ==> after[r].state == before[r].state)
  }

  // Once started an attempt stays, and its terminal state is final.
  ghost predicate AttemptsKept(before: Attempts, after: Attempts) {
    forall a :: a in before && before[a].state != Reserved ==>
      && a in after && after[a].request == before[a].request && after[a].number == before[a].number
      && after[a].state != Reserved
      && (!IsActive(before[a].state) ==> after[a] == before[a])
  }

  ghost predicate ReservationsKept(before: Reservations, after: Reservations) {
    forall v :: v in before ==>
      && v in after && after[v].attempt == before[v].attempt && after[v].request == before[v].request
      && after[v].generation == before[v].generation
      && (before[v].state != Holding ==> after[v].state == before[v].state)
  }

  ghost predicate StartsKept(before: Starts, after: Starts) {
    forall k :: k in before ==> k in after && before[k] <= after[k]
  }

  predicate CooldownAtLeast(before: Option<Time>, after: Option<Time>) {
    before.Some? ==> after.Some? && before.value <= after.value
  }

  ghost predicate CooldownsKept(before: Gates, after: Gates) {
    forall k :: k in before ==> k in after && CooldownAtLeast(before[k].cooldown, after[k].cooldown)
  }

  // Generations only grow, and one generation has one owner.
  ghost predicate LeaseKept(before: Option<LeaseRow>, after: Option<LeaseRow>) {
    && GenerationOf(before) <= GenerationOf(after)
    && (before.Some? && GenerationOf(before) == GenerationOf(after) ==>
          after.Some? && after.value.owner == before.value.owner)
  }

  ghost predicate HistoryKept(before: History, after: History) {
    && before.started <= after.started
    && forall r :: r in before.episode ==> r in after.episode && after.episode[r] == before.episode[r]
  }

  ghost predicate Evolves(before: Db, after: Db) {
    && ResultsKept(before.results, after.results)
    && RequestsKept(before.requests, after.requests)
    && ConsumersKept(before.consumers, after.consumers)
    && AttemptsKept(before.attempts, after.attempts)
    && ReservationsKept(before.reservations, after.reservations)
    && StartsKept(before.starts, after.starts)
    && CooldownsKept(before.gates, after.gates)
    && LeaseKept(before.lease, after.lease)
    && HistoryKept(before.history, after.history)
  }

  lemma Unchanged(db: Db)
    ensures Evolves(db, db)
  {
  }

  lemma EvolvesTransitive(a: Db, b: Db, c: Db)
    requires Evolves(a, b) && Evolves(b, c)
    ensures Evolves(a, c)
  {
  }

  // ---------------------------------------------------------------- table by table

  lemma CloseKept(requests: Requests, results: Results, closed: set<Id>, result: Result)
    requires forall r :: r in closed ==> Queued(requests, r)
    ensures RequestsKept(requests, CloseRequests(requests, closed, result.kind))
    ensures ResultsKept(results, CloseResults(results, closed, result))
  {
  }

  lemma LeaveKept(consumers: Consumers, leaving: set<Id>)
    requires forall r :: r in leaving && r in consumers ==> consumers[r].state == Active
    ensures ConsumersKept(consumers, Leave(consumers, leaving))
  {
  }

  lemma DeliverKept(requests: Requests, results: Results, consumers: Consumers, flights: Flights, fps: set<Id>)
    requires RequestsOk(requests, results)
    ensures var owners := Receivers(consumers, flights, fps);
            && RequestsKept(requests, DeliverRequests(requests, results, owners))
            && ResultsKept(results, DeliverResults(results, owners))
            && ConsumersKept(consumers, DeliverConsumers(consumers, owners))
  {
  }

  lemma EndLiveKept(attempts: Attempts, r: Id)
    ensures AttemptsKept(attempts, EndLive(attempts, r))
  {
  }

  lemma SettleKept(reservations: Reservations, some: set<Id>, state: ReservationState)
    requires some <= HeldBy(reservations)
    ensures ReservationsKept(reservations, Settle(reservations, some, state))
  {
  }

  lemma LoweredKept(gates: Gates, scopes: HeldScopes, some: set<Id>)
    ensures CooldownsKept(gates, Lowered(gates, scopes, some))
  {
    LoweredKeepsTimes(gates, scopes, some);
  }

  lemma CoolDownKept(gates: Gates, k: GateKey, deadline: Time)
    ensures CooldownsKept(gates, CoolDown(gates, k, deadline))
  {
  }

  lemma RaisedKept(gates: Gates, starts: Starts, some: set<GateKey>, now: Time)
    ensures CooldownsKept(gates, Raised(gates, some, now))
    ensures StartsKept(starts, WithStart(starts, some, now))
  {
  }

  lemma InterruptKept(attempts: Attempts, g: nat)
    ensures AttemptsKept(attempts, InterruptAttempts(attempts, g))
  {
  }

  lemma FailKept(requests: Requests, results: Results, attempts: Attempts, started: set<Id>, between: set<Id>, now: Time)
    requires forall r :: r in started + between ==> Queued(requests, r) && r !in results
    ensures RequestsKept(requests, FailRequests(requests, started, between))
    ensures ResultsKept(results, FailResults(results, attempts, started, between, now))
  {
    forall r | r in started || r in between
      ensures Queued(requests, r) && r !in results
    {
      assert r in started + between;
    }
  }

  lemma KeptTransitively(a: Requests, b: Requests, c: Requests, x: Results, y: Results, z: Results)
    requires RequestsKept(a, b) && RequestsKept(b, c) && ResultsKept(x, y) && ResultsKept(y, z)
    ensures RequestsKept(a, c) && ResultsKept(x, z)
  {
  }

  // ---------------------------------------------------------------- transaction by transaction

  lemma FreedKept(db: Db, r: Id)
    ensures var freed := Freed(db, r);
            && AttemptsKept(db.attempts, freed.attempts) && ReservationsKept(db.reservations, freed.reservations)
            && CooldownsKept(db.gates, freed.gates)
  {
    hide EndLive, Settle, Lowered, AttemptsKept, ReservationsKept, CooldownsKept;
    EndLiveKept(db.attempts, r);
    SettleKept(db.reservations, HeldByRequest(db.reservations, r), Recovered);
    LoweredKept(db.gates, db.scopes, HeldByRequest(db.reservations, r));
  }

  lemma SentCancelledKept(db: Db, r: Id, fp: Id, reason: Id, now: Time)
    requires Inv(db) && fp in db.flights
    ensures Evolves(db, SentCancelled(db, r, fp, reason, now))
  {
    hide Shape, Freed, AttemptsKept, ReservationsKept, CooldownsKept, RequestsKept, ResultsKept, ConsumersKept, CloseRequests, CloseResults, Leave;
    FreedKept(db, r);
    WaitingQueued(db, fp);
    FreedTables(db, r);
    CloseKept(db.requests, db.results, WaitingSet(db.consumers, fp), CancelResult(OutUnknown, now, reason));
    LeaveKept(db.consumers, WaitingSet(db.consumers, fp));
  }

  lemma FreedTables(db: Db, r: Id)
    ensures Freed(db, r) == db.(gates := Freed(db, r).gates, reservations := Freed(db, r).reservations, attempts := Freed(db, r).attempts)
  {
  }

  lemma WaitingQueued(db: Db, fp: Id)
    requires Inv(db)
    ensures forall s :: s in WaitingSet(db.consumers, fp) ==> Queued(db.requests, s) && db.consumers[s].state == Active
  {
    hide Shape;
  }

  lemma ReplacedKept(db: Db, r: Id, fp: Id, next: Option<Id>, reason: Id, now: Time)
    requires Inv(db) && fp in db.flights && r in db.queue && (next.Some? ==> next.value in db.consumers && next.value in db.requests)
    requires r in db.consumers && db.consumers[r].state == Active
    requires next.Some? ==> db.consumers[next.value].state == Active && next.value != r
    ensures Evolves(db, Replaced(db, r, fp, next, reason, now))
  {
    hide Shape, Freed, AttemptsKept, ReservationsKept, CooldownsKept, RequestsKept, ResultsKept, CloseRequests, CloseResults;
    FreedKept(db, r);
    FreedTables(db, r);
    assert Queued(db.requests, r);
    CloseKept(db.requests, db.results, {r}, CancelResult(OutCancelled, now, reason));
  }

  lemma CancelEvolves(db: Db, r: Id, reason: Id, token: Token, now: Time)
    requires Inv(db) && Cancel(db, r, reason, token, now).Commit?
    ensures Evolves(db, Cancel(db, r, reason, token, now).db)
  {
    hide Shape, LeadersQueued, CancelLeader, ReplaceLeader, Freed, NextLeader, Close, Leave, SentCancelled, Evolves;
    CancelTotal(db, r, reason, token, now);
    CancelStatesQueued(db, r);
    if db.consumers[r].role == Follower {
      FollowerCancelledKept(db, r, reason, now);
    } else {
      var fp := db.consumers[r].fingerprint;
      CancelLeaderBranches(db, r, reason, now);
      if MayHaveBeenSent(db.attempts, r) {
        SentCancelledKept(db, r, fp, reason, now);
      } else {
        LeaderIsQueued(db, r);
        ReplaceEvolves(db, r, reason, now);
      }
    }
  }

  lemma LeaderIsQueued(db: Db, r: Id)
    requires Inv(db) && r in db.consumers && db.consumers[r].role == Leader && db.consumers[r].state == Active
    ensures r in db.queue
  {
    hide RequestsOk, ConsumersOk, FlightsOk, QueueOk, OwnersOk, AttemptsOk, OneActive, ReservationsOk, Accounting,
         HoldingsOk, StartsOk, SuccessOk, EpisodesOk, SendersOk, LeadersQueued;
    LeaderEntry(db.queue, db.consumers, db.requests, r);
  }

  lemma CancelStatesQueued(db: Db, r: Id)
    requires Inv(db) && r in db.consumers && db.consumers[r].state == Active
    ensures Queued(db.requests, r)
  {
    hide Shape;
  }

  lemma FollowerCancelledKept(db: Db, r: Id, reason: Id, now: Time)
    requires Queued(db.requests, r) && r in db.consumers && db.consumers[r].state == Active
    ensures Evolves(db, Close(db, {r}, CancelResult(OutCancelled, now, reason)).(consumers := Leave(db.consumers, {r})))
  {
    CloseKept(db.requests, db.results, {r}, CancelResult(OutCancelled, now, reason));
    LeaveKept(db.consumers, {r});
  }

  lemma ReplaceEvolves(db: Db, r: Id, reason: Id, now: Time)
    requires Inv(db) && r in db.consumers && db.consumers[r].role == Leader && db.consumers[r].state == Active
    requires r in db.queue && ReplaceLeader(Freed(db, r), r, reason, now).Commit?
    ensures Evolves(db, ReplaceLeader(Freed(db, r), r, reason, now).db)
  {
    hide Shape, LeadersQueued, Freed, NextLeader, Evolves;
    var fp := db.consumers[r].fingerprint;
    FreedTables(db, r);
    NextFollower(db.consumers, fp);
    ReplacedIs(db, r, reason, now);
    ReplacedKept(db, r, fp, NextLeader(db.consumers, fp), reason, now);
  }

  lemma ReplacedIs(db: Db, r: Id, reason: Id, now: Time)
    requires r in db.consumers && r in db.queue && ReplaceLeader(Freed(db, r), r, reason, now).Commit?
    requires NextLeader(db.consumers, db.consumers[r].fingerprint).Some? ==> NextLeader(db.consumers, db.consumers[r].fingerprint).value != r
    ensures var fp := db.consumers[r].fingerprint; var next := NextLeader(db.consumers, fp);
            && fp in db.flights && (next.Some? ==> next.value in db.consumers && next.value in db.requests)
            && ReplaceLeader(Freed(db, r), r, reason, now) == Commit(Replaced(db, r, fp, next, reason, now), next)
  {
    hide EndLive, Settle, Lowered, CloseRequests, CloseResults;
    NextFollower(db.consumers, db.consumers[r].fingerprint);
  }

  lemma AdmitEvolves(db: Db, r: Id, task: Id, fp: Id, domain: Id, token: Token, now: Time, policy: QueuePolicy)
    requires Inv(db) && Admit(db, r, task, fp, domain, token, now, policy).Commit?
    ensures Evolves(db, Admit(db, r, task, fp, domain, token, now, policy).db)
  {
    hide Inv, Reconcile, QueueFull, JoinFlight, OpenFlight, Evolves;
    AdmitBranches(db, r, task, fp, domain, token, now, policy);
    NewInTables(db, r);
    if fp in db.flights && db.flights[fp].active {
      JoinEvolves(db, r, task, fp, domain, now);
    } else {
      OpenEvolves(db, r, task, fp, domain, now, policy);
    }
  }

  lemma JoinEvolves(db: Db, r: Id, task: Id, fp: Id, domain: Id, now: Time)
    requires r !in db.requests && r !in db.results && r !in db.consumers && r !in db.history.episode && fp in db.flights
    ensures var tx := JoinFlight(db.(requests := db.requests[r := Request(task, fp, ReqQueued)]), r, fp, domain, now);
            tx.Commit? ==> Evolves(db, tx.db)
  {
  }

  // The tables after a new flight opened, or was rejected because the queue is full.
  lemma OpenedTables(db: Db, r: Id, task: Id, fp: Id, domain: Id, now: Time, policy: QueuePolicy)
    requires OpenFlight(db, r, task, fp, domain, now, policy).Commit? && !QueueFull(db.queue, domain, task, policy)
    ensures r !in db.queue
    ensures var after := OpenFlight(db, r, task, fp, domain, now, policy).db;
            after == db.(flights := db.flights[fp := Flight(r, true)], audited := db.audited + {r},
                         queue := db.queue[r := Entry(domain, task, now, InQueue)],
                         consumers := db.consumers[r := ConsumerRow(fp, Leader, Active, domain, now)],
                         history := History(db.history.started, db.history.episode[r := Episode(db.history.activations, fp)],
                                            db.history.activations + 1))
  {
    hide QueueFull, Closable;
  }

  lemma RejectedTables(db: Db, r: Id, task: Id, fp: Id, domain: Id, now: Time, policy: QueuePolicy)
    requires OpenFlight(db, r, task, fp, domain, now, policy).Commit? && QueueFull(db.queue, domain, task, policy)
    ensures r !in db.queue
    ensures var after := OpenFlight(db, r, task, fp, domain, now, policy).db;
            after == Close(db, {r}, Result(OutFailed, now, Some(QUEUE_FULL))).(
                         flights := db.flights[fp := Flight(r, false)], audited := db.audited + {r},
                         queue := db.queue[r := Entry(domain, task, now, Rejected)],
                         consumers := db.consumers[r := ConsumerRow(fp, Leader, Left, domain, now)],
                         history := History(db.history.started, db.history.episode[r := Episode(db.history.activations, fp)],
                                            db.history.activations + 1))
  {
    hide QueueFull, CloseRequests, CloseResults, Closable;
  }

  lemma OpenEvolves(db: Db, r: Id, task: Id, fp: Id, domain: Id, now: Time, policy: QueuePolicy)
    requires r !in db.requests && r !in db.results && r !in db.consumers && r !in db.history.episode
    ensures var tx := OpenFlight(db.(requests := db.requests[r := Request(task, fp, ReqQueued)]), r, task, fp, domain, now, policy);
            tx.Commit? ==> Evolves(db, tx.db)
  {
    hide QueueFull, CloseRequests, CloseResults, RequestsKept, ResultsKept, ConsumersKept, AttemptsKept, ReservationsKept,
         StartsKept, CooldownsKept, LeaseKept, HistoryKept, OpenFlight;
    var request := Request(task, fp, ReqQueued);
    var added := db.(requests := db.requests[r := request]);
    var result := Result(OutFailed, now, Some(QUEUE_FULL));
    if OpenFlight(added, r, task, fp, domain, now, policy).Commit? {
      if QueueFull(db.queue, domain, task, policy) {
        RejectedTables(added, r, task, fp, domain, now, policy);
      } else {
        OpenedTables(added, r, task, fp, domain, now, policy);
      }
      Unchanged(db);
      var state := if QueueFull(db.queue, domain, task, policy) then Left else Active;
      RowAdded(db, r, request, ConsumerRow(fp, Leader, state, domain, now), Episode(db.history.activations, fp));
      JustQueued(db.requests, r, request);
      CloseKept(added.requests, db.results, {r}, result);
      KeptTransitively(db.requests, added.requests, CloseRequests(added.requests, {r}, OutFailed),
                       db.results, db.results, CloseResults(db.results, {r}, result));
    }
  }

  lemma JustQueued(requests: Requests, r: Id, request: Request)
    requires request.state == ReqQueued
    ensures Queued(requests[r := request], r)
  {
  }

  lemma RowAdded(db: Db, r: Id, request: Request, row: ConsumerRow, episode: Episode)
    requires r !in db.requests && r !in db.consumers && r !in db.history.episode
    ensures RequestsKept(db.requests, db.requests[r := request])
    ensures ConsumersKept(db.consumers, db.consumers[r := row])
    ensures HistoryKept(db.history, History(db.history.started, db.history.episode[r := episode], db.history.activations + 1))
  {
  }

  lemma NewInTables(db: Db, r: Id)
    requires Inv(db) && r !in db.requests
    ensures r !in db.results && r !in db.consumers && r !in db.history.episode
  {
    hide FlightsOk, QueueOk, OwnersOk, AttemptsOk, OneActive, ReservationsOk, Accounting, HoldingsOk, StartsOk, SuccessOk, SendersOk;
  }

  lemma FinalizeEvolves(db: Db, r: Id, result: Result, token: Token, now: Time)
    requires Inv(db) && Finalize(db, r, result, token, now).Commit?
    ensures Evolves(db, Finalize(db, r, result, token, now).db)
  {
    hide Shape, LeadersQueued, Deliverable, AttemptFault, Evolves, DeliverRequests, DeliverResults, DeliverConsumers, EndFlights, WithdrawLeaders,
         Receivers, CloseRequests, CloseResults;
    ClosedRequestsOk(db, r, result);
    CloseKept(db.requests, db.results, {r}, result);
    var persisted := Close(db, {r}, result);
    if r in db.consumers {
      DeliverKept(persisted.requests, persisted.results, db.consumers, db.flights, {db.consumers[r].fingerprint});
      DeliveredEvolves(db, persisted, {db.consumers[r].fingerprint});
    } else {
      ClosedEvolves(db, persisted);
    }
  }

  lemma ClosedRequestsOk(db: Db, r: Id, result: Result)
    requires Inv(db) && Queued(db.requests, r)
    ensures RequestsOk(CloseRequests(db.requests, {r}, result.kind), CloseResults(db.results, {r}, result))
  {
    hide RequestsOk, ConsumersOk, FlightsOk, QueueOk, OwnersOk, AttemptsOk, OneActive, ReservationsOk, Accounting,
         HoldingsOk, StartsOk, SuccessOk, EpisodesOk, SendersOk, LeadersQueued;
    CloseKeepsRequests(db.requests, db.results, {r}, result);
  }

  lemma ClosedEvolves(db: Db, persisted: Db)
    requires persisted == db.(requests := persisted.requests, results := persisted.results)
    requires RequestsKept(db.requests, persisted.requests) && ResultsKept(db.results, persisted.results)
    ensures Evolves(db, persisted)
  {
  }

  lemma DeliveredEvolves(db: Db, persisted: Db, fps: set<Id>)
    requires persisted == db.(requests := persisted.requests, results := persisted.results)
    requires RequestsKept(db.requests, persisted.requests) && ResultsKept(db.results, persisted.results)
    requires RequestsOk(persisted.requests, persisted.results)
    ensures Evolves(db, Deliver(persisted, fps))
  {
    hide RequestsKept, ResultsKept, ConsumersKept, AttemptsKept, ReservationsKept, StartsKept, CooldownsKept, LeaseKept, HistoryKept,
         DeliverRequests, DeliverResults, DeliverConsumers, RequestsOk, Receivers, EndFlights, WithdrawLeaders;
    var after := Deliver(persisted, fps);
    Unchanged(db);
    DeliverKept(persisted.requests, persisted.results, persisted.consumers, persisted.flights, fps);
    KeptTransitively(db.requests, persisted.requests, after.requests, db.results, persisted.results, after.results);
  }

  lemma AcquireEvolves(db: Db, v: Id, a: Id, attempt: Attempt, keys: Keys, policy: GatePolicy, token: Token, now: Time)
    requires AcquireGates(db, v, a, attempt, keys, policy, token, now).Commit?
    ensures Evolves(db, AcquireGates(db, v, a, attempt, keys, policy, token, now).db)
  {
    AcquireFacts(db, v, a, attempt, keys, policy, token, now);
    hide AcquireGates, Raised, WithStart, KeySet, FirstBlocked, NextNumber, HasReservation, ResultsKept, RequestsKept, ConsumersKept,
         AttemptsKept, ReservationsKept, StartsKept, CooldownsKept, HistoryKept;
    Unchanged(db);
    RaisedKept(db.gates, db.starts, KeySet(keys), now);
    AddedKept(db.attempts, a, attempt, db.reservations, v, Reservation(a, attempt.request, token.generation, now, Holding));
  }

  lemma AddedKept(attempts: Attempts, a: Id, attempt: Attempt, reservations: Reservations, v: Id, reservation: Reservation)
    ensures AttemptsKept(attempts, attempts)
    ensures a !in attempts ==> AttemptsKept(attempts, attempts[a := attempt.(state := Reserved, rawEligible := false)])
    ensures v !in reservations ==> ReservationsKept(reservations, reservations[v := reservation])
  {
  }

  lemma FinishEvolves(db: Db, v: Id, a: Id, r: Id, outcome: AttemptState, retryAfter: Option<nat>, raw: bool, token: Token, now: Time)
    requires FinishGates(db, v, a, r, outcome, retryAfter, raw, token, now).Commit? && !IsActive(outcome)
    ensures Evolves(db, FinishGates(db, v, a, r, outcome, retryAfter, raw, token, now).db)
  {
    hide Lowered, Settle, CoolDown, Releasable;
    SettleKept(db.reservations, {v}, Released);
    LoweredKept(db.gates, db.scopes, {v});
    if retryAfter.Some? {
      CoolDownKept(Lowered(db.gates, db.scopes, {v}), GateKey(Provider, db.scopes[v][Provider]), now + retryAfter.value);
    }
  }

  lemma RecoverIs(db: Db, owner: Id, now: Time, duration: nat)
    requires Inv(db) && RecoverLease(db, owner, now, duration).Commit?
    ensures var g := GenerationOf(db.lease);
            var tx := Reconcile(Interrupt(db, g, now), None);
            && db.lease.Some? && tx.Commit?
            && RecoverLease(db, owner, now, duration).db
               == tx.db.(lease := Some(LeaseRow(owner, g + 1, now, now, now + duration, true)))
  {
    hide Inv, Reconcile, RecoveryFault, Releasable, StartedRequests, BetweenAttempts, HeldUpTo, Interrupt;
  }

  lemma RecoverEvolves(db: Db, owner: Id, now: Time, duration: nat)
    requires Inv(db) && RecoverLease(db, owner, now, duration).Commit?
    ensures Evolves(db, RecoverLease(db, owner, now, duration).db)
  {
    hide Inv, RecoverLease, Reconcile, Interrupt, Evolves, Deliver, LeaderFinished, RequestsKept, ResultsKept, RequestsOk;
    var g := GenerationOf(db.lease);
    var interrupted := Interrupt(db, g, now);
    var done := set fp | fp in interrupted.flights && interrupted.flights[fp].active && LeaderFinished(interrupted, fp);
    RecoverIs(db, owner, now, duration);
    InterruptEvolves(db, g, now);
    InterruptedOk(db, now);
    ReconcileFrame(interrupted, done);
    DeliveredEvolves(interrupted, interrupted, done);
    EvolvesTransitive(db, interrupted, Deliver(interrupted, done));
    NextLease(Deliver(interrupted, done), db, LeaseRow(owner, g + 1, now, now, now + duration, true));
  }

  lemma NextLease(after: Db, db: Db, lease: LeaseRow)
    requires Evolves(db, after) && lease.generation > GenerationOf(db.lease)
    ensures Evolves(db, after.(lease := Some(lease)))
  {
  }

  lemma InterruptedOk(db: Db, now: Time)
    requires Inv(db)
    ensures var interrupted := Interrupt(db, GenerationOf(db.lease), now);
            && RequestsOk(interrupted.requests, interrupted.results)
            && RequestsKept(interrupted.requests, interrupted.requests) && ResultsKept(interrupted.results, interrupted.results)
  {
    hide ConsumersOk, FlightsOk, QueueOk, OwnersOk, AttemptsOk, OneActive, ReservationsOk, Accounting, HoldingsOk, StartsOk, SuccessOk, EpisodesOk,
         SendersOk, LeadersQueued, RequestsOk, Interrupt;
    InterruptKeepsShape(db, now);
  }

  lemma InterruptEvolves(db: Db, g: nat, now: Time)
    requires Inv(db) && g == GenerationOf(db.lease)
    ensures Evolves(db, Interrupt(db, g, now))
  {
    hide RequestsOk, ConsumersOk, FlightsOk, QueueOk, OwnersOk, AttemptsOk, OneActive, ReservationsOk, Accounting,
         HoldingsOk, StartsOk, SuccessOk, EpisodesOk, SendersOk, LeadersQueued, Settle, Lowered, InterruptAttempts, Requeue,
         StartedRequests, BetweenAttempts, FailRequests, FailResults, HeldUpTo,
         RequestsKept, ResultsKept, AttemptsKept, ReservationsKept, CooldownsKept;
    var started, between := StartedRequests(db.attempts, g), BetweenAttempts(db);
    NoRecoveryFault(db);
    InterruptedTables(db, g, now);
    AllHeld(db.reservations, db.scopes, db.attempts, g);
    FailKept(db.requests, db.results, db.attempts, started, between, now);
    InterruptKept(db.attempts, g);
    SettleKept(db.reservations, HeldUpTo(db.reservations, g), Recovered);
    LoweredKept(db.gates, db.scopes, HeldUpTo(db.reservations, g));
  }

  // ---------------------------------------------------------------- one table changes

  lemma AttemptsChange(db: Db, attempts: Attempts, started: seq<Id>)
    requires AttemptsKept(db.attempts, attempts) && db.history.started <= started
    ensures Evolves(db, db.(attempts := attempts, history := db.history.(started := started)))
  {
  }

  lemma ReserveEvolves(db: Db, a: Id, r: Id, token: Token, now: Time)
    requires ReserveAttempt(db, a, r, token, now).Commit?
    ensures Evolves(db, ReserveAttempt(db, a, r, token, now).db)
  {
    ReserveFacts(db, a, r, token, now);
    AttemptsChange(db, ReserveAttempt(db, a, r, token, now).db.attempts, db.history.started);
  }

  lemma DiscardEvolves(db: Db, a: Id, token: Token, now: Time)
    requires DiscardAttempt(db, a, token, now).Commit?
    ensures Evolves(db, DiscardAttempt(db, a, token, now).db)
  {
    AttemptsChange(db, db.attempts - {a}, db.history.started);
  }

  lemma MarkEvolves(db: Db, a: Id, token: Token, now: Time)
    requires MarkStarted(db, a, token, now).Commit?
    ensures Evolves(db, MarkStarted(db, a, token, now).db)
  {
    AttemptsChange(db, MarkStarted(db, a, token, now).db.attempts, db.history.started + [a]);
  }

  lemma ClaimEvolves(db: Db, domain: Id, token: Token, now: Time)
    requires Claim(db, domain, token, now).Commit?
    ensures Evolves(db, Claim(db, domain, token, now).db)
  {
    Unchanged(db);
    if Claim(db, domain, token, now).value.Some? {
      ClaimPicks(db, domain, token, now);
      hide Claim;
    }
  }

  lemma LeaseChange(db: Db, lease: LeaseRow)
    requires GenerationOf(db.lease) <= lease.generation
    requires db.lease.Some? && db.lease.value.generation == lease.generation ==> lease.owner == db.lease.value.owner
    ensures Evolves(db, db.(lease := Some(lease)))
  {
  }

  lemma AcquireLeaseEvolves(db: Db, owner: Id, now: Time, duration: nat)
    requires Inv(db) && AcquireLease(db, owner, now, duration).Commit?
    ensures Evolves(db, AcquireLease(db, owner, now, duration).db)
  {
    hide Inv, AcquireLease;
    AcquireLeaseTotal(db, owner, now, duration);
    LeaseChange(db, LeaseRow(owner, GenerationOf(db.lease) + 1, now, now, now + duration, true));
  }

  lemma HeartbeatEvolves(db: Db, token: Token, now: Time, duration: nat)
    requires Heartbeat(db, token, now, duration).Commit?
    ensures Evolves(db, Heartbeat(db, token, now, duration).db)
  {
    LeaseChange(db, db.lease.value.(heartbeatAt := now, expiresAt := now + duration));
  }

  lemma ReleaseEvolves(db: Db, token: Token, now: Time)
    requires ReleaseLease(db, token, now).Commit?
    ensures Evolves(db, ReleaseLease(db, token, now).db)
  {
    LeaseChange(db, db.lease.value.(active := false));
  }
}
