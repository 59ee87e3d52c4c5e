/** Claiming and finalisation keep the invariant, and finalisation never meets an inconsistency. */
module ResultProofs {
  import opened Basics
  import opened Tables
  import opened Transactions
  import opened Invariant
  import opened DeliveryProofs
  import opened FlightProofs

  // ---------------------------------------------------------------- finalisation

  lemma ClosedLeader(requests: Requests, consumers: Consumers, audited: set<Id>, r: Id, kind: ResultKind)
    requires ConsumersOk(requests, consumers, audited)
    requires r in consumers && consumers[r].role == Leader
    ensures ConsumersOk(CloseRequests(requests, {r}, kind), consumers, audited)
  {
  }

  lemma ClosedLeaderSuccess(results: Results, consumers: Consumers, attempts: Attempts, r: Id, result: Result)
    requires SuccessOk(results, consumers, attempts)
    requires r in consumers && consumers[r].state == Active
    ensures SuccessOk(CloseResults(results, {r}, result), consumers, attempts)
  {
  }

  lemma FlightOf(flights: Flights, consumers: Consumers, r: Id)
    requires FlightsOk(flights, consumers)
    requires r in consumers && consumers[r].role == Leader && consumers[r].state == Active
    ensures consumers[r].fingerprint in flights && flights[consumers[r].fingerprint] == Flight(r, true)
  {
  }

  lemma OtherLeadersQueued(requests: Requests, consumers: Consumers, flights: Flights, r: Id, kind: ResultKind)
    requires FlightsOk(flights, consumers) && LeadersQueued(requests, consumers) && r in consumers
    ensures forall fp :: fp in flights && flights[fp].active && fp != consumers[r].fingerprint ==>
              Queued(CloseRequests(requests, {r}, kind), flights[fp].leader)
  {
  }

  lemma PersistKeepsShape(db: Db, r: Id, result: Result)
    requires Inv(db) && Queued(db.requests, r) && !HasActiveAttempt(db.attempts, r)
    requires r in db.consumers && db.consumers[r].role == Leader && db.consumers[r].state == Active
    ensures Shape(Close(db, {r}, result), GenerationOf(db.lease))
  {
    hide RequestsOk, ConsumersOk, FlightsOk, QueueOk, OwnersOk, AttemptsOk, OneActive, ReservationsOk, Accounting,
         HoldingsOk, StartsOk, SuccessOk, EpisodesOk, SendersOk, LeadersQueued, CloseRequests, CloseResults;
    CloseKeepsRequests(db.requests, db.results, {r}, result);
    ClosedLeader(db.requests, db.consumers, db.audited, r, result.kind);
    CloseKeepsQueue(db.queue, db.consumers, db.requests, {r}, result.kind);
    CloseKeepsOwners(db.consumers, db.results, {r}, result);
    CloseKeepsAttempts(db.attempts, db.queue, db.requests, db.reservations, {r}, result.kind, GenerationOf(db.lease));
    ClosedLeaderSuccess(db.results, db.consumers, db.attempts, r, result);
  }

  lemma UnclosedResult(requests: Requests, results: Results, r: Id)
    requires RequestsOk(requests, results) && Queued(requests, r)
    ensures r !in results
  {
  }

  lemma ClosedResult(results: Results, r: Id, result: Result)
    requires r !in results
    ensures r in CloseResults(results, {r}, result) && CloseResults(results, {r}, result)[r] == result
  {
  }

  /** Finalisation fails only for the reasons a caller can see: a finished request, a request that is not the
      leader, or attempts that do not support the outcome. */
  lemma FinalizeTotal(db: Db, r: Id, result: Result, token: Token, now: Time)
    requires Inv(db)
    ensures var tx := Finalize(db, r, result, token, now);
            && (tx.Abort? ==> tx.fault != FlightInconsistent && tx.fault != DuplicateKey)
            && (tx.Commit? ==> Inv(tx.db))
    ensures var tx := Finalize(db, r, result, token, now);
            tx.Commit? <==> Fence(db.lease, token, now).None? && Queued(db.requests, r) && r in db.consumers
                            && db.consumers[r].role == Leader && AttemptFault(db.attempts, r, result.kind).None?
  {
    hide RequestsOk, ConsumersOk, FlightsOk, QueueOk, OwnersOk, AttemptsOk, OneActive, ReservationsOk, Accounting,
         HoldingsOk, StartsOk, SuccessOk, EpisodesOk, SendersOk, CloseRequests, CloseResults, Deliverable, Deliver, AttemptFault;
    AttemptFaults(db.attempts, r, result.kind);
    SameKeys(db.requests, db.consumers, db.audited);
    QueuedIsActive(db.requests, db.consumers, db.audited);
    if Queued(db.requests, r) {
      UnclosedResult(db.requests, db.results, r);
    }
    if Queued(db.requests, r) && db.consumers[r].role == Leader && AttemptFault(db.attempts, r, result.kind).None? {
      var persisted := Close(db, {r}, result);
      var fp := db.consumers[r].fingerprint;
      FlightOf(db.flights, db.consumers, r);
      ClosedResult(db.results, r, result);
      SupportedIdle(db.attempts, r, result.kind);
      PersistKeepsShape(db, r, result);
      ShapeDeliverable(persisted, GenerationOf(db.lease), fp);
      DeliverKeepsShape(persisted, GenerationOf(db.lease), {fp});
      OtherLeadersQueued(db.requests, db.consumers, db.flights, r, result.kind);
      DeliverKeepsLease(persisted, {fp});
    }
  }

  lemma QueuedIsActive(requests: Requests, consumers: Consumers, audited: set<Id>)
    requires ConsumersOk(requests, consumers, audited)
    ensures forall r :: Queued(requests, r) ==> r in consumers && consumers[r].state == Active
  {
  }

  lemma AttemptFaults(attempts: Attempts, r: Id, kind: ResultKind)
    ensures var fault := AttemptFault(attempts, r, kind);
            fault in {None, Some(ActiveAttempt), Some(SuccessInvalid), Some(UnknownMissing)}
  {
  }

  lemma SupportedIdle(attempts: Attempts, r: Id, kind: ResultKind)
    requires AttemptFault(attempts, r, kind).None?
    ensures !HasActiveAttempt(attempts, r)
  {
  }

  // ---------------------------------------------------------------- claiming

  lemma ClaimedEntry(queue: Queue, consumers: Consumers, requests: Requests, r: Id)
    requires QueueOk(queue, consumers, requests) && r in queue && queue[r].state == InQueue
    ensures QueueOk(queue[r := queue[r].(state := Dequeued)], consumers, requests)
    ensures r in consumers && consumers[r].role == Leader && consumers[r].state == Active
  {
  }

  lemma ClaimedAttempts(attempts: Attempts, queue: Queue, requests: Requests, g: nat, r: Id)
    requires AttemptsOk(attempts, queue, requests, g) && r in queue && queue[r].state == InQueue
    ensures AttemptsOk(attempts, queue[r := queue[r].(state := Dequeued)], requests, g)
    ensures AttemptsOf(attempts, r) == {}
  {
  }

  lemma ClaimPicks(db: Db, domain: Id, token: Token, now: Time)
    requires Claim(db, domain, token, now).Commit? && Claim(db, domain, token, now).value.Some?
    ensures var r := Claim(db, domain, token, now).value.value;
            && r in db.queue && db.queue[r].state == InQueue && db.queue[r].domain == domain
            && Claim(db, domain, token, now).db
               == db.(queue := db.queue[r := db.queue[r].(state := Dequeued)], cursors := db.cursors[domain := db.queue[r].task])
  {
  }

  /** What is claimed is the live, unfinished leader of an active flight, never sent before. */
  lemma ClaimKeepsInv(db: Db, domain: Id, token: Token, now: Time)
    requires Inv(db) && Claim(db, domain, token, now).Commit?
    ensures Inv(Claim(db, domain, token, now).db)
    ensures Claim(db, domain, token, now).value.Some? ==>
              var r := Claim(db, domain, token, now).value.value;
              && r in db.consumers && db.consumers[r].fingerprint in db.flights
              && db.flights[db.consumers[r].fingerprint] == Flight(r, true)
              && Queued(db.requests, r) && r !in db.results && AttemptsOf(db.attempts, r) == {}
  {
    hide RequestsOk, ConsumersOk, FlightsOk, QueueOk, OwnersOk, AttemptsOk, OneActive, ReservationsOk, Accounting,
         HoldingsOk, StartsOk, SuccessOk, EpisodesOk, SendersOk;
    if Claim(db, domain, token, now).value.Some? {
      hide Claim;
      ClaimPicks(db, domain, token, now);
      var r := Claim(db, domain, token, now).value.value;
      ClaimedEntry(db.queue, db.consumers, db.requests, r);
      ClaimedAttempts(db.attempts, db.queue, db.requests, GenerationOf(db.lease), r);
      FlightOf(db.flights, db.consumers, r);
      UnclosedResult(db.requests, db.results, r);
    }
  }
}
