/** Taking over an expired lease never meets an inconsistency and restores order. */
module RecoveryProofs {
  import opened Basics
  import opened Tables
  import opened Transactions
  import opened Invariant
  import opened GateProofs
  import opened DeliveryProofs
  import opened EndProofs
  import opened CancelProofs

  // ---------------------------------------------------------------- no fail-closed branch

  lemma AllHeld(reservations: Reservations, scopes: HeldScopes, attempts: Attempts, g: nat)
    requires ReservationsOk(reservations, scopes, attempts, g)
    ensures HeldUpTo(reservations, g) == HeldBy(reservations)
    ensures forall v :: v in HeldBy(reservations) ==> v in scopes && scopes[v].Keys == ALL_SCOPES
  {
  }

  lemma NoGap(db: Db, g: nat)
    requires AttemptsOk(db.attempts, db.queue, db.requests, g) && HoldingsOk(db.attempts, db.reservations, db.requests)
    requires RequestsOk(db.requests, db.results)
    ensures RecoveryFault(db, g).None?
  {
    hide HasReleasedReservation, HasHoldingReservation;
  }

  lemma ClosedSetsQueued(db: Db, g: nat)
    requires AttemptsOk(db.attempts, db.queue, db.requests, g) && RequestsOk(db.requests, db.results)
    ensures forall r :: r in StartedRequests(db.attempts, g) + BetweenAttempts(db) ==>
              Queued(db.requests, r) && r !in db.results && r in db.queue
  {
  }

  // ---------------------------------------------------------------- the interrupted tables

  function FailRequests(requests: Requests, started: set<Id>, between: set<Id>): Requests {
    map r | r in requests ::
      if r in started || r in between then requests[r].(state := ReqFailed) else requests[r]
  }

  function FailResults(results: Results, attempts: Attempts, started: set<Id>, between: set<Id>, now: Time): Results {
    map r | r in results.Keys + started + between ::
      if r in started then Result(OutUnknown, now, Some(OWNER_INTERRUPTED))
      else if r in between then Result(InterruptedKind(attempts, r), now, Some(INTERRUPTED_BETWEEN_ATTEMPTS))
      else results[r]
  }

  lemma InterruptedTables(db: Db, g: nat, now: Time)
    ensures var started, between := StartedRequests(db.attempts, g), BetweenAttempts(db);
            && Interrupt(db, g, now).requests == FailRequests(db.requests, started, between)
            && Interrupt(db, g, now).results == FailResults(db.results, db.attempts, started, between, now)
  {
  }

  lemma FailKeepsRequests(requests: Requests, results: Results, attempts: Attempts, started: set<Id>, between: set<Id>, now: Time)
    requires RequestsOk(requests, results)
    requires forall r :: r in started + between ==> Queued(requests, r)
    ensures RequestsOk(FailRequests(requests, started, between), FailResults(results, attempts, started, between, now))
  {
    assert FailResults(results, attempts, started, between, now).Keys == results.Keys + started + between;
    forall r | r in started || r in between
      ensures r in requests
    {
      assert r in started + between;
    }
  }

  lemma FailKeepsConsumers(requests: Requests, consumers: Consumers, audited: set<Id>, started: set<Id>, between: set<Id>)
    requires ConsumersOk(requests, consumers, audited)
    requires forall r :: r in started + between && r in consumers ==> consumers[r].role == Leader
    ensures ConsumersOk(FailRequests(requests, started, between), consumers, audited)
  {
  }

  lemma FailKeepsOwners(consumers: Consumers, results: Results, attempts: Attempts, started: set<Id>, between: set<Id>, now: Time)
    requires OwnersOk(consumers, results)
    requires forall r :: r in started + between ==> r !in results
    ensures OwnersOk(consumers, FailResults(results, attempts, started, between, now))
  {
  }

  lemma RequeueKeepsQueue(db: Db, started: set<Id>, between: set<Id>)
    requires QueueOk(db.queue, db.consumers, db.requests) && ConsumersOk(db.requests, db.consumers, db.audited)
    ensures QueueOk(Requeue(db), db.consumers, FailRequests(db.requests, started, between))
  {
  }

  lemma SettledQueue(db: Db, a: Id)
    requires a in db.attempts && db.attempts[a].request in db.queue
    ensures Requeue(db)[db.attempts[a].request] == db.queue[db.attempts[a].request]
  {
    assert a in AttemptsOf(db.attempts, db.attempts[a].request);
  }

  lemma ReservedStaysOpen(db: Db, g: nat, a: Id)
    requires OneActive(db.attempts) && AttemptsOk(db.attempts, db.queue, db.requests, g)
    requires a in db.attempts && db.attempts[a].state == Reserved
    ensures db.attempts[a].request !in StartedRequests(db.attempts, g)
    ensures db.attempts[a].request !in BetweenAttempts(db)
  {
  }

  lemma InterruptKeepsAttempts(db: Db, g: nat)
    requires OneActive(db.attempts) && AttemptsOk(db.attempts, db.queue, db.requests, g)
    ensures var requests := FailRequests(db.requests, StartedRequests(db.attempts, g), BetweenAttempts(db));
            AttemptsOk(InterruptAttempts(db.attempts, g), Requeue(db), requests, g + 1)
    ensures OneActive(InterruptAttempts(db.attempts, g))
  {
    hide Requeue, StartedRequests, BetweenAttempts;
    RequeueDomain(db);
    forall a | a in db.attempts
      ensures Requeue(db)[db.attempts[a].request] == db.queue[db.attempts[a].request]
      ensures db.attempts[a].state == Reserved ==>
                db.attempts[a].request !in StartedRequests(db.attempts, g) && db.attempts[a].request !in BetweenAttempts(db)
    {
      SettledQueue(db, a);
      if db.attempts[a].state == Reserved {
        ReservedStaysOpen(db, g, a);
      }
    }
  }

  lemma RequeueDomain(db: Db)
    ensures Requeue(db).Keys == db.queue.Keys
  {
  }

  lemma InterruptKeepsReservations(attempts: Attempts, reservations: Reservations, scopes: HeldScopes, g: nat)
    requires ReservationsOk(reservations, scopes, attempts, g)
    ensures ReservationsOk(Settle(reservations, HeldBy(reservations), Recovered), scopes, InterruptAttempts(attempts, g), g + 1)
    ensures HeldBy(Settle(reservations, HeldBy(reservations), Recovered)) == {}
  {
    SettleReservations(attempts, InterruptAttempts(attempts, g), reservations, scopes, g, HeldBy(reservations), Recovered);
    SettleShrinks(reservations, HeldBy(reservations), Recovered);
    LaterGeneration(Settle(reservations, HeldBy(reservations), Recovered), scopes, InterruptAttempts(attempts, g), g);
  }

  lemma LaterGeneration(reservations: Reservations, scopes: HeldScopes, attempts: Attempts, g: nat)
    requires ReservationsOk(reservations, scopes, attempts, g)
    ensures ReservationsOk(reservations, scopes, attempts, g + 1)
  {
  }

  // A reservation released properly is not touched by recovery.
  lemma ReleasedStays(reservations: Reservations, a: Id)
    requires HasReleasedReservation(reservations, a)
    ensures HasReleasedReservation(Settle(reservations, HeldBy(reservations), Recovered), a)
  {
    var v :| v in reservations && reservations[v].attempt == a && reservations[v].state == Released;
    var after := Settle(reservations, HeldBy(reservations), Recovered);
    assert v in after && after[v] == reservations[v];
  }

  lemma StartedClosed(attempts: Attempts, g: nat, a: Id)
    requires a in attempts && attempts[a].state == Started && attempts[a].generation <= g
    ensures attempts[a].request in StartedRequests(attempts, g)
  {
  }

  lemma InterruptKeepsHoldings(db: Db, g: nat)
    requires HoldingsOk(db.attempts, db.reservations, db.requests)
    requires AttemptsOk(db.attempts, db.queue, db.requests, g)
    ensures var requests := FailRequests(db.requests, StartedRequests(db.attempts, g), BetweenAttempts(db));
            HoldingsOk(InterruptAttempts(db.attempts, g), Settle(db.reservations, HeldBy(db.reservations), Recovered), requests)
  {
    hide HasHoldingReservation, HasReleasedReservation, Settle, StartedRequests, BetweenAttempts;
    forall a | a in db.attempts
      ensures HasReleasedReservation(db.reservations, a) ==>
                HasReleasedReservation(Settle(db.reservations, HeldBy(db.reservations), Recovered), a)
      ensures db.attempts[a].state == Started ==> db.attempts[a].request in StartedRequests(db.attempts, g)
    {
      if HasReleasedReservation(db.reservations, a) {
        ReleasedStays(db.reservations, a);
      }
      if db.attempts[a].state == Started {
        StartedClosed(db.attempts, g, a);
      }
    }
  }

  lemma SoundStays(attempts: Attempts, g: nat, r: Id)
    requires SoundSuccess(attempts, r)
    ensures SoundSuccess(InterruptAttempts(attempts, g), r)
  {
    var last :| last in attempts && attempts[last].request == r && attempts[last].state == AttSucceeded
      && forall b :: b in attempts && attempts[b].request == r ==> attempts[b].number <= attempts[last].number;
    var after := InterruptAttempts(attempts, g);
    assert last in after && after[last].state == AttSucceeded;
  }

  lemma InterruptKeepsSuccess(results: Results, consumers: Consumers, attempts: Attempts, g: nat,
                              started: set<Id>, between: set<Id>, now: Time)
    requires SuccessOk(results, consumers, attempts)
    ensures SuccessOk(FailResults(results, attempts, started, between, now), consumers, InterruptAttempts(attempts, g))
  {
    hide SoundSuccess;
    forall r | r in results && r in consumers && results[r].kind == OutSucceeded && consumers[r].state != Active
      ensures SoundSuccess(InterruptAttempts(attempts, g), consumers[r].state.owner)
    {
      SoundStays(attempts, g, consumers[r].state.owner);
    }
  }

  lemma InterruptKeepsSenders(history: History, attempts: Attempts, flights: Flights, g: nat)
    requires SendersOk(history, attempts, flights)
    ensures SendersOk(history, InterruptAttempts(attempts, g), flights)
  {
  }

  lemma LeadersAre(queue: Queue, consumers: Consumers, requests: Requests, some: set<Id>)
    requires QueueOk(queue, consumers, requests) && forall r :: r in some ==> r in queue
    ensures forall r :: r in some ==> r in consumers && consumers[r].role == Leader
  {
  }

  lemma InterruptKeepsShape(db: Db, now: Time)
    requires Inv(db)
    ensures Shape(Interrupt(db, GenerationOf(db.lease), now), GenerationOf(db.lease) + 1)
    ensures HeldBy(Interrupt(db, GenerationOf(db.lease), now).reservations) == {}
  {
    hide RequestsOk, ConsumersOk, FlightsOk, QueueOk, OwnersOk, AttemptsOk, OneActive, ReservationsOk, Accounting,
         HoldingsOk, StartsOk, SuccessOk, EpisodesOk, SendersOk, LeadersQueued, Settle, Lowered, InterruptAttempts, Requeue,
         StartedRequests, BetweenAttempts, FailRequests, FailResults, HeldBy, HeldUpTo;
    var g := GenerationOf(db.lease);
    var started, between := StartedRequests(db.attempts, g), BetweenAttempts(db);
    InterruptedTables(db, g, now);
    AllHeld(db.reservations, db.scopes, db.attempts, g);
    ClosedSetsQueued(db, g);
    LeadersAre(db.queue, db.consumers, db.requests, started + between);
    FailKeepsRequests(db.requests, db.results, db.attempts, started, between, now);
    FailKeepsConsumers(db.requests, db.consumers, db.audited, started, between);
    FailKeepsOwners(db.consumers, db.results, db.attempts, started, between, now);
    RequeueKeepsQueue(db, started, between);
    InterruptKeepsAttempts(db, g);
    InterruptKeepsReservations(db.attempts, db.reservations, db.scopes, g);
    ReleaseKeepsAccounting(db.gates, db.reservations, db.scopes, HeldBy(db.reservations), Recovered);
    LoweredStarts(db.gates, db.starts, db.scopes, HeldBy(db.reservations));
    InterruptKeepsHoldings(db, g);
    InterruptKeepsSuccess(db.results, db.consumers, db.attempts, g, started, between, now);
    InterruptKeepsSenders(db.history, db.attempts, db.flights, g);
  }

  // ---------------------------------------------------------------- the results recovery writes are supported

  lemma InterruptedUnknown(attempts: Attempts, g: nat, r: Id)
    requires OneActive(attempts) && r in StartedRequests(attempts, g)
    ensures AttemptFault(InterruptAttempts(attempts, g), r, OutUnknown).None?
  {
    var a :| a in attempts && attempts[a].state == Started && attempts[a].generation <= g && attempts[a].request == r;
    var after := InterruptAttempts(attempts, g);
    assert a in after && after[a].state == AttUnknown;
    forall b | b in attempts && attempts[b].request == r
      ensures !IsActive(after[b].state)
    {
    }
  }

  lemma InterruptedBetween(db: Db, g: nat, r: Id)
    requires r in BetweenAttempts(db)
    ensures AttemptFault(InterruptAttempts(db.attempts, g), r, InterruptedKind(db.attempts, r)).None?
  {
    var after := InterruptAttempts(db.attempts, g);
    assert !HasActiveAttempt(db.attempts, r);
    forall a | a in db.attempts && db.attempts[a].request == r
      ensures a in after && after[a] == db.attempts[a]
    {
    }
    if HasUnknownAttempt(db.attempts, r) {
      var a :| a in db.attempts && db.attempts[a].request == r && db.attempts[a].state == AttUnknown;
      assert a in after && after[a].state == AttUnknown;
    }
  }

  lemma FailedResult(results: Results, attempts: Attempts, started: set<Id>, between: set<Id>, now: Time, r: Id)
    requires r !in results && r in FailResults(results, attempts, started, between, now)
    ensures r in started || r in between
    ensures FailResults(results, attempts, started, between, now)[r].kind
            == if r in started then OutUnknown else InterruptedKind(attempts, r)
  {
  }

  lemma InterruptSupported(db: Db, now: Time, fp: Id)
    requires Inv(db)
    ensures Supported(Interrupt(db, GenerationOf(db.lease), now), fp)
  {
    hide RequestsOk, ConsumersOk, QueueOk, OwnersOk, AttemptsOk, OneActive, ReservationsOk, Accounting,
         HoldingsOk, StartsOk, SuccessOk, EpisodesOk, SendersOk, Settle, Lowered, InterruptAttempts, Requeue,
         StartedRequests, BetweenAttempts, FailRequests, FailResults, AttemptFault, HeldUpTo;
    var g := GenerationOf(db.lease);
    var started, between := StartedRequests(db.attempts, g), BetweenAttempts(db);
    InterruptedTables(db, g, now);
    if fp in db.flights && db.flights[fp].active && db.flights[fp].leader in Interrupt(db, g, now).results {
      var leader := db.flights[fp].leader;
      UnclosedLeader(db.requests, db.results, db.flights, db.consumers, fp);
      FailedResult(db.results, db.attempts, started, between, now, leader);
      if leader in started {
        InterruptedUnknown(db.attempts, g, leader);
      } else {
        InterruptedBetween(db, g, leader);
      }
    }
  }

  lemma UnclosedLeader(requests: Requests, results: Results, flights: Flights, consumers: Consumers, fp: Id)
    requires RequestsOk(requests, results) && FlightsOk(flights, consumers) && LeadersQueued(requests, consumers)
    requires fp in flights && flights[fp].active
    ensures flights[fp].leader !in results
  {
  }

  // ---------------------------------------------------------------- the theorem

  lemma NothingHeldCounts(gates: Gates, reservations: Reservations, scopes: HeldScopes, k: GateKey)
    requires Accounting(gates, reservations, scopes) && HeldBy(reservations) == {}
    ensures ActiveCount(gates, k) == 0
  {
    assert ActiveCount(gates, k) == |Holders(HeldBy(reservations), scopes, k)|;
    assert Holders(HeldBy(reservations), scopes, k) == {};
  }

  /** After recovery nothing is started or held, every gate is empty, and its start times and cooldown are kept. */
  ghost predicate CalmGates(before: Db, after: Db) {
    && (forall a :: a in after.attempts ==> after.attempts[a].state != Started)
    && HeldBy(after.reservations) == {}
    && (forall k :: ActiveCount(after.gates, k) == 0)
    && after.gates.Keys == before.gates.Keys
    && (forall k :: k in before.gates ==>
          after.gates[k].lastStarted == before.gates[k].lastStarted && after.gates[k].cooldown == before.gates[k].cooldown)
    && after.starts == before.starts
  }

  // Exactly the claimed, still queued requests that never had an attempt are back in the queue; no other entry changes.
  ghost predicate RequeuedOnly(before: Db, after: Db) {
    && after.queue.Keys == before.queue.Keys
    && (forall r :: r in before.queue ==>
          after.queue[r] == if before.queue[r].state == Dequeued && r in before.requests && before.requests[r].state == ReqQueued
                               && (forall a :: a in before.attempts ==> before.attempts[a].request != r)
                            then before.queue[r].(state := InQueue) else before.queue[r])
  }

  lemma LoweredKeepsTimes(gates: Gates, scopes: HeldScopes, some: set<Id>)
    ensures Lowered(gates, scopes, some).Keys == gates.Keys
    ensures forall k :: k in gates ==>
              Lowered(gates, scopes, some)[k].lastStarted == gates[k].lastStarted
              && Lowered(gates, scopes, some)[k].cooldown == gates[k].cooldown
  {
  }

  lemma InterruptStops(attempts: Attempts, g: nat)
    requires forall a :: a in attempts ==> attempts[a].generation <= g
    ensures forall a :: a in InterruptAttempts(attempts, g) ==> InterruptAttempts(attempts, g)[a].state != Started
  {
  }

  lemma AttemptGenerations(attempts: Attempts, queue: Queue, requests: Requests, g: nat)
    requires AttemptsOk(attempts, queue, requests, g)
    ensures forall a :: a in attempts ==> attempts[a].generation <= g
  {
  }

  lemma InterruptCalms(db: Db, now: Time)
    requires Inv(db)
    ensures CalmGates(db, Interrupt(db, GenerationOf(db.lease), now))
  {
    hide RequestsOk, ConsumersOk, FlightsOk, QueueOk, OwnersOk, AttemptsOk, OneActive, ReservationsOk, Accounting,
         HoldingsOk, StartsOk, SuccessOk, EpisodesOk, SendersOk, LeadersQueued, Settle, Lowered, InterruptAttempts, Requeue,
         StartedRequests, BetweenAttempts, FailRequests, FailResults, HeldBy, HeldUpTo, ActiveCount;
    var g := GenerationOf(db.lease);
    var after := Interrupt(db, g, now);
    InterruptKeepsShape(db, now);
    LoweredKeepsTimes(db.gates, db.scopes, HeldUpTo(db.reservations, g));
    AttemptGenerations(db.attempts, db.queue, db.requests, g);
    InterruptStops(db.attempts, g);
    forall k ensures ActiveCount(after.gates, k) == 0 {
      NothingHeldCounts(after.gates, after.reservations, after.scopes, k);
    }
  }

  lemma InterruptRequeues(db: Db, now: Time)
    ensures RequeuedOnly(db, Interrupt(db, GenerationOf(db.lease), now))
  {
    forall r | r in db.queue
      ensures AttemptsOf(db.attempts, r) == {} <==> forall a :: a in db.attempts ==> db.attempts[a].request != r
    {
      NoAttempts(db.attempts, r);
    }
    hide AttemptsOf, InterruptAttempts, Lowered, Settle;
  }

  lemma NoAttempts(attempts: Attempts, r: Id)
    ensures AttemptsOf(attempts, r) == {} <==> forall a :: a in attempts ==> attempts[a].request != r
  {
    if AttemptsOf(attempts, r) == {} {
      forall a | a in attempts
        ensures attempts[a].request != r
      {
        assert a !in AttemptsOf(attempts, r);
      }
    }
  }

  // Delivery takes queue entries out of the queue only for finished leaders, which are not waiting in it.
  lemma DeliverKeepsRequeued(before: Db, db: Db, g: nat, fps: set<Id>)
    requires RequeuedOnly(before, db) && Shape(db, g)
    requires forall fp :: fp in fps ==> fp in db.flights && AttemptsOf(db.attempts, db.flights[fp].leader) != {}
    ensures RequeuedOnly(before, Deliver(db, fps))
  {
    hide RequestsOk, ConsumersOk, FlightsOk, QueueOk, OwnersOk, OneActive, ReservationsOk, Accounting,
         HoldingsOk, StartsOk, SuccessOk, EpisodesOk, SendersOk, Requeued;
    WithdrawNothing(db.queue, db.attempts, db.requests, db.consumers, db.flights, g, fps);
  }

  lemma WithdrawNothing(queue: Queue, attempts: Attempts, requests: Requests, consumers: Consumers, flights: Flights, g: nat, fps: set<Id>)
    requires AttemptsOk(attempts, queue, requests, g)
    requires forall fp :: fp in fps ==> fp in flights && AttemptsOf(attempts, flights[fp].leader) != {}
    ensures WithdrawLeaders(queue, Receivers(consumers, flights, fps)) == queue
  {
    var owners := Receivers(consumers, flights, fps);
    forall r | r in owners && r in queue && owners[r] == r
      ensures queue[r].state != InQueue
    {
      var a :| a in AttemptsOf(attempts, flights[consumers[r].fingerprint].leader);
    }
  }

  lemma ReconcileFrame(db: Db, done: set<Id>)
    requires Reconcile(db, None).Commit?
    requires done == set fp | fp in db.flights && db.flights[fp].active && LeaderFinished(db, fp)
    ensures Reconcile(db, None).db == Deliver(db, done)
  {
    var all: Option<Id> := None;
    var active := set fp | fp in db.flights && db.flights[fp].active && (all == None || all == Some(fp));
    assert done == set fp | fp in active && LeaderFinished(db, fp);
  }

  lemma DeliverFrame(db: Db, fps: set<Id>)
    ensures var after := Deliver(db, fps);
            && after.attempts == db.attempts && after.gates == db.gates && after.reservations == db.reservations
            && after.scopes == db.scopes && after.starts == db.starts && after.lease == db.lease && after.history == db.history
            && after.cursors == db.cursors && after.audited == db.audited
  {
  }

  // A finished leader among the interrupted tables was sent, or at least had an attempt.
  lemma FinishedHadAttempt(db: Db, now: Time, fp: Id)
    requires Inv(db) && LeaderFinished(Interrupt(db, GenerationOf(db.lease), now), fp)
    ensures AttemptsOf(Interrupt(db, GenerationOf(db.lease), now).attempts, db.flights[fp].leader) != {}
  {
    hide ConsumersOk, QueueOk, OwnersOk, AttemptsOk, OneActive, ReservationsOk, Accounting,
         HoldingsOk, StartsOk, SuccessOk, EpisodesOk, SendersOk, Settle, Lowered, Requeue, HeldUpTo, InterruptAttempts, RequestsOk, FlightsOk;
    var g := GenerationOf(db.lease);
    var after := Interrupt(db, g, now);
    var leader := db.flights[fp].leader;
    LeaderWasQueued(db.flights, db.consumers, db.requests, db.results, fp);
    assert leader in StartedRequests(db.attempts, g) || leader in BetweenAttempts(db);
    var a :| a in db.attempts && db.attempts[a].request == leader;
    SameAttempts(db.attempts, g);
    assert a in AttemptsOf(after.attempts, leader);
  }

  lemma LeaderWasQueued(flights: Flights, consumers: Consumers, requests: Requests, results: Results, fp: Id)
    requires FlightsOk(flights, consumers) && LeadersQueued(requests, consumers) && RequestsOk(requests, results)
    requires fp in flights && flights[fp].active
    ensures Queued(requests, flights[fp].leader) && flights[fp].leader !in results
  {
  }

  lemma SameAttempts(attempts: Attempts, g: nat)
    ensures InterruptAttempts(attempts, g).Keys == attempts.Keys
    ensures forall a :: a in attempts ==> InterruptAttempts(attempts, g)[a].request == attempts[a].request
  {
  }

  lemma ReconcileInterrupted(db: Db, now: Time)
    requires Inv(db)
    ensures var interrupted := Interrupt(db, GenerationOf(db.lease), now);
            var tx := Reconcile(interrupted, None);
            && tx.Commit?
            && Shape(tx.db, GenerationOf(db.lease) + 1) && LeadersQueued(tx.db.requests, tx.db.consumers)
            && CalmGates(db, tx.db) && RequeuedOnly(db, tx.db)
            && tx.db.attempts == interrupted.attempts && tx.db.history == db.history
  {
    hide Inv, Shape, LeadersQueued, Interrupt, CalmGates, RequeuedOnly, Reconcile, Deliver, LeaderFinished, Supported;
    var g := GenerationOf(db.lease);
    var interrupted := Interrupt(db, g, now);
    InterruptKeepsShape(db, now);
    InterruptCalms(db, now);
    InterruptRequeues(db, now);
    InterruptHistory(db, g, now);
    forall fp ensures Supported(interrupted, fp) {
      InterruptSupported(db, now, fp);
    }
    ReconcileRepairs(interrupted, g + 1, None);
    var done := set fp | fp in interrupted.flights && interrupted.flights[fp].active && LeaderFinished(interrupted, fp);
    ReconcileFrame(interrupted, done);
    forall fp | fp in done ensures AttemptsOf(interrupted.attempts, interrupted.flights[fp].leader) != {} {
      FinishedHadAttempt(db, now, fp);
    }
    DeliverKeepsRequeued(db, interrupted, g + 1, done);
    DeliverFrame(interrupted, done);
    CalmFrame(db, interrupted, Deliver(interrupted, done));
  }

  lemma InterruptHistory(db: Db, g: nat, now: Time)
    ensures Interrupt(db, g, now).history == db.history && Interrupt(db, g, now).flights == db.flights
  {
  }

  lemma CalmFrame(before: Db, middle: Db, after: Db)
    requires CalmGates(before, middle)
    requires after.attempts == middle.attempts && after.gates == middle.gates
    requires after.reservations == middle.reservations && after.starts == middle.starts
    ensures CalmGates(before, after)
  {
  }

  lemma RelabelShape(db: Db, lease: LeaseRow)
    requires Shape(db, lease.generation) && LeadersQueued(db.requests, db.consumers)
    ensures Inv(db.(lease := Some(lease)))
  {
    hide RequestsOk, ConsumersOk, FlightsOk, QueueOk, OwnersOk, AttemptsOk, OneActive, ReservationsOk, Accounting,
         HoldingsOk, StartsOk, SuccessOk, EpisodesOk, SendersOk, LeadersQueued;
  }

  lemma NoRecoveryFault(db: Db)
    requires Inv(db)
    ensures var g := GenerationOf(db.lease);
            && RecoveryFault(db, g).None?
            && Releasable(db.gates, db.scopes, HeldUpTo(db.reservations, g))
            && (forall r :: r in StartedRequests(db.attempts, g) + BetweenAttempts(db) ==> Queued(db.requests, r) && r !in db.results)
  {
    hide RequestsOk, ConsumersOk, FlightsOk, QueueOk, OwnersOk, AttemptsOk, OneActive, ReservationsOk, Accounting,
         HoldingsOk, StartsOk, SuccessOk, EpisodesOk, SendersOk, LeadersQueued, RecoveryFault, Releasable, StartedRequests, BetweenAttempts;
    var g := GenerationOf(db.lease);
    NoGap(db, g);
    AllHeld(db.reservations, db.scopes, db.attempts, g);
    HeldIsReleasable(db.gates, db.reservations, db.scopes, HeldBy(db.reservations));
    ClosedSetsQueued(db, g);
  }

  /** Recovery is total: from reachable tables it takes over every expired lease, through none of its
      audit-gap, generation-anomaly or inconsistency branches, and leaves calm gates. */
  lemma RecoverTotal(db: Db, owner: Id, now: Time, duration: nat)
    requires Inv(db)
    requires db.lease.Some? && db.lease.value.active && db.lease.value.heartbeatAt <= now && db.lease.value.expiresAt <= now
    ensures var tx := RecoverLease(db, owner, now, duration);
            && tx.Commit? && Inv(tx.db) && CalmGates(db, tx.db) && RequeuedOnly(db, tx.db)
            && tx.db.attempts == InterruptAttempts(db.attempts, GenerationOf(db.lease)) && tx.db.history == db.history
            && tx.value == Token(owner, GenerationOf(db.lease) + 1, now, now + duration)
            && tx.db.lease == Some(LeaseRow(owner, GenerationOf(db.lease) + 1, now, now, now + duration, true))
  {
    hide Inv, Shape, LeadersQueued, CalmGates, RequeuedOnly, Reconcile, RecoveryFault, Releasable, StartedRequests,
         BetweenAttempts, HeldUpTo, InterruptAttempts, Interrupt;
    var g := GenerationOf(db.lease);
    NoRecoveryFault(db);
    ReconcileInterrupted(db, now);
    InterruptedAttempts(db, g, now);
    var after := Reconcile(Interrupt(db, g, now), None).db;
    var lease := LeaseRow(owner, g + 1, now, now, now + duration, true);
    RelabelShape(after, lease);
    CalmFrame(db, after, after.(lease := Some(lease)));
    RequeuedFrame(db, after, after.(lease := Some(lease)));
  }

  lemma RequeuedFrame(before: Db, middle: Db, after: Db)
    requires RequeuedOnly(before, middle) && after.queue == middle.queue
    ensures RequeuedOnly(before, after)
  {
  }

  lemma InterruptedAttempts(db: Db, g: nat, now: Time)
    ensures Interrupt(db, g, now).attempts == InterruptAttempts(db.attempts, g)
  {
  }

  // ---------------------------------------------------------------- the other lease transactions

  lemma LaterShape(db: Db, g: nat)
    requires Shape(db, g)
    ensures Shape(db, g + 1)
  {
    hide RequestsOk, ConsumersOk, FlightsOk, QueueOk, OwnersOk, OneActive, Accounting, HoldingsOk, StartsOk, SuccessOk, EpisodesOk, SendersOk,
         AttemptsOk, ReservationsOk;
    LaterAttempts(db.attempts, db.queue, db.requests, g);
    LaterGeneration(db.reservations, db.scopes, db.attempts, g);
  }

  lemma LaterAttempts(attempts: Attempts, queue: Queue, requests: Requests, g: nat)
    requires AttemptsOk(attempts, queue, requests, g)
    ensures AttemptsOk(attempts, queue, requests, g + 1)
  {
  }

  /** An unowned lease is always acquired, under the next generation, and nothing else changes. */
  lemma AcquireLeaseTotal(db: Db, owner: Id, now: Time, duration: nat)
    requires Inv(db)
    ensures var tx := AcquireLease(db, owner, now, duration);
            && (tx.Commit? <==> !(db.lease.Some? && db.lease.value.active))
            && (tx.Commit? ==>
                  && Inv(tx.db)
                  && tx.db == db.(lease := Some(LeaseRow(owner, GenerationOf(db.lease) + 1, now, now, now + duration, true))))
  {
    hide Shape, LeadersQueued, Reconcile;
    if !(db.lease.Some? && db.lease.value.active) {
      var lease := LeaseRow(owner, GenerationOf(db.lease) + 1, now, now, now + duration, true);
      LaterShape(db, GenerationOf(db.lease));
      RelabelShape(db, lease);
      ReconcileNoOp(db.(lease := Some(lease)), None);
    }
  }

  lemma SameGenerationKeepsInv(db: Db, lease: LeaseRow)
    requires Inv(db) && db.lease.Some? && lease.generation == db.lease.value.generation
    ensures Inv(db.(lease := Some(lease)))
  {
    hide Shape, LeadersQueued;
    RelabelShape(db, lease);
  }
}
