/** Delivering finished leaders' results restores the invariant. */
module DeliveryProofs {
  import opened Basics
  import opened Tables
  import opened Transactions
  import opened Invariant

  ghost predicate CanDeliver(db: Db, fps: set<Id>) {
    forall fp :: fp in fps ==>
      && Deliverable(db, fp)
      && db.flights[fp].leader in db.results
      && AttemptFault(db.attempts, db.flights[fp].leader, db.results[db.flights[fp].leader].kind).None?
  }

  // What the receivers of a deliverable set of flights look like.
  ghost predicate OwnersFit(owners: map<Id, Id>, consumers: Consumers, results: Results, fps: set<Id>) {
    && (forall r :: r in owners ==>
          && r in consumers && consumers[r].state == Active && consumers[r].fingerprint in fps
          && owners[r] in owners && owners[owners[r]] == owners[r]
          && owners[r] in results && owners[r] in consumers && consumers[owners[r]].fingerprint == consumers[r].fingerprint
          && (r in results <==> r == owners[r])
          && (consumers[r].role == Leader <==> r == owners[r]))
    && (forall r :: r in consumers && consumers[r].state == Active && consumers[r].fingerprint in fps ==> r in owners)
  }

  lemma DeliverableReceiver(db: Db, fp: Id, r: Id)
    requires ConsumersOk(db.requests, db.consumers, db.audited) && RequestsOk(db.requests, db.results)
    requires Deliverable(db, fp) && Waiting(db.consumers, fp, r)
    requires db.flights[fp].leader in db.results
    ensures Waiting(db.consumers, fp, db.flights[fp].leader)
    ensures (r in db.results <==> r == db.flights[fp].leader)
    ensures (db.consumers[r].role == Leader <==> r == db.flights[fp].leader)
    ensures r != db.flights[fp].leader ==> AttemptsOf(db.attempts, r) == {}
  {
  }

  lemma ReceiverFits(db: Db, fps: set<Id>, owners: map<Id, Id>, r: Id)
    requires ConsumersOk(db.requests, db.consumers, db.audited) && RequestsOk(db.requests, db.results)
    requires CanDeliver(db, fps) && owners == Receivers(db.consumers, db.flights, fps) && r in owners
    ensures r in db.consumers && db.consumers[r].state == Active && db.consumers[r].fingerprint in fps
    ensures owners[r] in owners && owners[owners[r]] == owners[r] && owners[r] in db.consumers
    ensures owners[r] in db.results && db.consumers[owners[r]].fingerprint == db.consumers[r].fingerprint
    ensures r in db.results <==> r == owners[r]
    ensures db.consumers[r].role == Leader <==> r == owners[r]
    ensures r !in db.results ==> AttemptsOf(db.attempts, r) == {}
  {
    hide ConsumersOk, RequestsOk, Deliverable, AttemptFault, AttemptsOf;
    DeliverableReceiver(db, db.consumers[r].fingerprint, r);
  }

  lemma AllReceive(db: Db, fps: set<Id>)
    requires CanDeliver(db, fps)
    ensures forall r :: r in db.consumers && db.consumers[r].state == Active && db.consumers[r].fingerprint in fps ==>
              r in Receivers(db.consumers, db.flights, fps)
  {
    hide AttemptFault, Waiting;
  }

  lemma ReceiversFit(db: Db, fps: set<Id>)
    requires ConsumersOk(db.requests, db.consumers, db.audited) && RequestsOk(db.requests, db.results)
    requires CanDeliver(db, fps)
    ensures OwnersFit(Receivers(db.consumers, db.flights, fps), db.consumers, db.results, fps)
    ensures forall r :: r in Receivers(db.consumers, db.flights, fps) && r !in db.results ==> AttemptsOf(db.attempts, r) == {}
  {
    hide ConsumersOk, RequestsOk, CanDeliver, AttemptsOf, Receivers;
    var owners := Receivers(db.consumers, db.flights, fps);
    AllReceive(db, fps);
    forall r | r in owners
      ensures r in db.consumers && db.consumers[r].state == Active && db.consumers[r].fingerprint in fps
      ensures owners[r] in owners && owners[owners[r]] == owners[r] && owners[r] in db.consumers
      ensures owners[r] in db.results && db.consumers[owners[r]].fingerprint == db.consumers[r].fingerprint
      ensures r in db.results <==> r == owners[r]
      ensures db.consumers[r].role == Leader <==> r == owners[r]
      ensures r !in db.results ==> AttemptsOf(db.attempts, r) == {}
    {
      ReceiverFits(db, fps, owners, r);
    }
  }

  lemma KeepRequests(requests: Requests, results: Results, owners: map<Id, Id>, consumers: Consumers, fps: set<Id>)
    requires RequestsOk(requests, results) && consumers.Keys == requests.Keys && OwnersFit(owners, consumers, results, fps)
    ensures RequestsOk(DeliverRequests(requests, results, owners), DeliverResults(results, owners))
  {
  }

  lemma KeepConsumers(requests: Requests, results: Results, owners: map<Id, Id>, consumers: Consumers, audited: set<Id>, fps: set<Id>)
    requires ConsumersOk(requests, consumers, audited) && OwnersFit(owners, consumers, results, fps)
    requires RequestsOk(requests, results)
    ensures ConsumersOk(DeliverRequests(requests, results, owners), DeliverConsumers(consumers, owners), audited)
  {
  }

  lemma KeepFlights(flights: Flights, consumers: Consumers, results: Results, owners: map<Id, Id>, fps: set<Id>)
    requires FlightsOk(flights, consumers) && OwnersFit(owners, consumers, results, fps)
    ensures FlightsOk(EndFlights(flights, fps), DeliverConsumers(consumers, owners))
  {
  }

  lemma KeepEpisodes(history: History, flights: Flights, consumers: Consumers, results: Results, owners: map<Id, Id>, fps: set<Id>)
    requires EpisodesOk(history, consumers, flights) && OwnersFit(owners, consumers, results, fps)
    ensures EpisodesOk(history, DeliverConsumers(consumers, owners), EndFlights(flights, fps))
  {
  }

  lemma KeepQueue(queue: Queue, requests: Requests, results: Results, owners: map<Id, Id>, consumers: Consumers, fps: set<Id>)
    requires QueueOk(queue, consumers, requests) && OwnersFit(owners, consumers, results, fps)
    ensures QueueOk(WithdrawLeaders(queue, owners), DeliverConsumers(consumers, owners), DeliverRequests(requests, results, owners))
  {
  }

  lemma KeepAttempts(attempts: Attempts, queue: Queue, requests: Requests, results: Results, owners: map<Id, Id>,
                     reservations: Reservations, generation: nat)
    requires AttemptsOk(attempts, queue, requests, generation) && HoldingsOk(attempts, reservations, requests)
    requires forall r :: r in owners && r !in results ==> AttemptsOf(attempts, r) == {}
    requires RequestsOk(requests, results)
    ensures AttemptsOk(attempts, WithdrawLeaders(queue, owners), DeliverRequests(requests, results, owners), generation)
    ensures HoldingsOk(attempts, reservations, DeliverRequests(requests, results, owners))
  {
    forall a | a in attempts
      ensures DeliverRequests(requests, results, owners)[attempts[a].request] == requests[attempts[a].request]
    {
      assert a in AttemptsOf(attempts, attempts[a].request);
    }
  }

  lemma KeepOwners(consumers: Consumers, results: Results, owners: map<Id, Id>, fps: set<Id>)
    requires OwnersOk(consumers, results) && OwnersFit(owners, consumers, results, fps)
    ensures OwnersOk(DeliverConsumers(consumers, owners), DeliverResults(results, owners))
  {
  }

  lemma KeepSuccess(consumers: Consumers, results: Results, owners: map<Id, Id>, fps: set<Id>, attempts: Attempts)
    requires SuccessOk(results, consumers, attempts) && OwnersFit(owners, consumers, results, fps)
    requires forall r :: r in owners && results[owners[r]].kind == OutSucceeded ==> SoundSuccess(attempts, owners[r])
    ensures SuccessOk(DeliverResults(results, owners), DeliverConsumers(consumers, owners), attempts)
  {
  }

  lemma KeepSenders(history: History, attempts: Attempts, flights: Flights, fps: set<Id>)
    requires SendersOk(history, attempts, flights)
    ensures SendersOk(history, attempts, EndFlights(flights, fps))
  {
  }

  lemma KeepLeadersQueued(requests: Requests, results: Results, consumers: Consumers, flights: Flights, owners: map<Id, Id>, fps: set<Id>)
    requires RequestsOk(requests, results) && FlightsOk(flights, consumers) && OwnersFit(owners, consumers, results, fps)
    requires forall r :: r in consumers && consumers[r].state == Active && consumers[r].role == Follower ==> Queued(requests, r)
    requires forall fp :: fp in flights && flights[fp].active && fp !in fps ==> Queued(requests, flights[fp].leader)
    ensures LeadersQueued(DeliverRequests(requests, results, owners), DeliverConsumers(consumers, owners))
  {
  }

  lemma SameKeys(requests: Requests, consumers: Consumers, audited: set<Id>)
    requires ConsumersOk(requests, consumers, audited)
    ensures consumers.Keys == requests.Keys
    ensures forall r :: r in consumers && consumers[r].state == Active && consumers[r].role == Follower ==> Queued(requests, r)
  {
  }

  lemma SuccessfulOwners(db: Db, fps: set<Id>)
    requires CanDeliver(db, fps)
    ensures var owners := Receivers(db.consumers, db.flights, fps);
      forall r | r in owners :: owners[r] in db.results && (db.results[owners[r]].kind == OutSucceeded ==> SoundSuccess(db.attempts, owners[r]))
  {
  }

  /** Every part of the shape survives delivery. */
  lemma DeliverKeepsShape(db: Db, g: nat, fps: set<Id>)
    requires Shape(db, g) && CanDeliver(db, fps)
    ensures Shape(Deliver(db, fps), g)
    ensures (forall fp :: fp in db.flights && db.flights[fp].active && fp !in fps ==> Queued(db.requests, db.flights[fp].leader))
            ==> LeadersQueued(Deliver(db, fps).requests, Deliver(db, fps).consumers)
  {
    hide RequestsOk, ConsumersOk, FlightsOk, QueueOk, OwnersOk, AttemptsOk, OneActive, ReservationsOk, Accounting,
         HoldingsOk, StartsOk, SuccessOk, EpisodesOk, SendersOk, OwnersFit, LeadersQueued, CanDeliver, Receivers, DeliverRequests,
         DeliverResults, DeliverConsumers, EndFlights, WithdrawLeaders, AttemptsOf;
    var owners := Receivers(db.consumers, db.flights, fps);
    ReceiversFit(db, fps);
    SameKeys(db.requests, db.consumers, db.audited);
    KeepRequests(db.requests, db.results, owners, db.consumers, fps);
    KeepConsumers(db.requests, db.results, owners, db.consumers, db.audited, fps);
    KeepFlights(db.flights, db.consumers, db.results, owners, fps);
    KeepEpisodes(db.history, db.flights, db.consumers, db.results, owners, fps);
    KeepSenders(db.history, db.attempts, db.flights, fps);
    KeepQueue(db.queue, db.requests, db.results, owners, db.consumers, fps);
    KeepAttempts(db.attempts, db.queue, db.requests, db.results, owners, db.reservations, g);
    KeepOwners(db.consumers, db.results, owners, fps);
    SuccessfulOwners(db, fps);
    KeepSuccess(db.consumers, db.results, owners, fps, db.attempts);
    if forall fp :: fp in db.flights && db.flights[fp].active && fp !in fps ==> Queued(db.requests, db.flights[fp].leader) {
      KeepLeadersQueued(db.requests, db.results, db.consumers, db.flights, owners, fps);
    }
  }

  lemma NothingDelivered(requests: Requests, results: Results, consumers: Consumers)
    ensures DeliverRequests(requests, results, map[]) == requests
    ensures DeliverResults(results, map[]) == results
    ensures DeliverConsumers(consumers, map[]) == consumers
  {
    assert DeliverResults(results, map[]).Keys == results.Keys;
  }

  lemma NothingEnded(consumers: Consumers, flights: Flights, queue: Queue)
    ensures Receivers(consumers, flights, {}) == map[]
    ensures EndFlights(flights, {}) == flights
    ensures WithdrawLeaders(queue, map[]) == queue
  {
    assert Receivers(consumers, flights, {}).Keys == {};
  }

  lemma DeliverNothing(db: Db)
    ensures Deliver(db, {}) == db
  {
    hide Receivers, DeliverRequests, DeliverResults, DeliverConsumers, EndFlights, WithdrawLeaders;
    NothingDelivered(db.requests, db.results, db.consumers);
    NothingEnded(db.consumers, db.flights, db.queue);
  }

  // Every active flight has its leader in place, and that leader has no result yet.
  ghost predicate Idle(db: Db) {
    forall fp :: fp in db.flights && db.flights[fp].active ==>
      LeaderInPlace(db, fp) && Queued(db.requests, db.flights[fp].leader) && db.flights[fp].leader !in db.results
  }

  lemma ReconcileIdle(db: Db, filter: Option<Id>)
    requires Idle(db)
    ensures Reconcile(db, filter) == Commit(db, ())
  {
    var active := set fp | fp in db.flights && db.flights[fp].active && (filter == None || filter == Some(fp));
    assert (set fp | fp in active && LeaderFinished(db, fp)) == {};
    DeliverNothing(db);
  }

  lemma InPlace(flights: Flights, consumers: Consumers, requests: Requests, audited: set<Id>, db: Db)
    requires FlightsOk(flights, consumers) && ConsumersOk(requests, consumers, audited)
    requires db.flights == flights && db.consumers == consumers && db.requests == requests
    ensures forall fp :: fp in flights && flights[fp].active ==> LeaderInPlace(db, fp)
  {
  }

  lemma InvIsIdle(db: Db)
    requires Inv(db)
    ensures Idle(db)
  {
    hide QueueOk, OwnersOk, AttemptsOk, OneActive, ReservationsOk, Accounting, HoldingsOk, StartsOk, SuccessOk, EpisodesOk, SendersOk;
    InPlace(db.flights, db.consumers, db.requests, db.audited, db);
  }

  /** On reachable tables reconciliation does nothing: no result is ever waiting for delivery. */
  lemma ReconcileNoOp(db: Db, filter: Option<Id>)
    requires Inv(db)
    ensures Reconcile(db, filter) == Commit(db, ())
  {
    InvIsIdle(db);
    ReconcileIdle(db, filter);
  }

  lemma ShapeDeliverable(db: Db, g: nat, fp: Id)
    requires Shape(db, g) && fp in db.flights && db.flights[fp].active
    ensures Deliverable(db, fp)
  {
    hide OwnersOk, OneActive, ReservationsOk, Accounting, HoldingsOk, StartsOk, SuccessOk, EpisodesOk, SendersOk;
    FollowersIdle(db, g);
  }

  lemma FollowersIdle(db: Db, g: nat)
    requires QueueOk(db.queue, db.consumers, db.requests) && AttemptsOk(db.attempts, db.queue, db.requests, g)
    ensures forall r :: r in db.consumers && db.consumers[r].role == Follower ==> r !in db.queue && AttemptsOf(db.attempts, r) == {}
  {
    forall a | a in db.attempts
      ensures db.attempts[a].request in db.consumers && db.consumers[db.attempts[a].request].role == Leader
    {
    }
  }

  // A finished leader's attempts support the result it was given.
  ghost predicate Supported(db: Db, fp: Id) {
    fp in db.flights && db.flights[fp].active && db.flights[fp].leader in db.results ==>
      AttemptFault(db.attempts, db.flights[fp].leader, db.results[db.flights[fp].leader].kind).None?
  }

  lemma ReconcilableIff(db: Db, g: nat, fp: Id)
    requires Shape(db, g) && fp in db.flights && db.flights[fp].active
    ensures Deliverable(db, fp)
    ensures Reconcilable(db, fp) <==> Supported(db, fp)
    ensures LeaderFinished(db, fp) <==> db.flights[fp].leader in db.results
    ensures !LeaderFinished(db, fp) ==> Queued(db.requests, db.flights[fp].leader)
  {
    hide ConsumersOk, FlightsOk, QueueOk, OwnersOk, AttemptsOk, OneActive, ReservationsOk, Accounting, HoldingsOk, StartsOk, SuccessOk,
         EpisodesOk, SendersOk, AttemptFault;
    ShapeDeliverable(db, g, fp);
  }

  // Flights to be repaired: active, of this fingerprint if one is given, and their leader already has its result.
  predicate ToDeliver(db: Db, fp: Id, filter: Option<Id>) {
    fp in db.flights && db.flights[fp].active && db.flights[fp].leader in db.results && (filter == None || filter == Some(fp))
  }

  // What the repair does to the rows of one consumer: it receives its leader's result, or is left alone.
  ghost predicate RowsRepaired(before: Db, after: Db, r: Id, filter: Option<Id>)
    requires r in before.consumers
  {
    var fp := before.consumers[r].fingerprint;
    && r in after.consumers
    && if before.consumers[r].state == Active && ToDeliver(before, fp, filter) then
         var leader := before.flights[fp].leader;
         && after.consumers[r] == before.consumers[r].(state := Completed(leader))
         && r in after.results && after.results[r] == before.results[leader]
         && r in before.requests && r in after.requests
         && after.requests[r] == before.requests[r].(state := StateOf(before.results[leader].kind))
       else
         && after.consumers[r] == before.consumers[r]
         && (r in after.results <==> r in before.results) && (r in before.results ==> after.results[r] == before.results[r])
         && (r in after.requests <==> r in before.requests) && (r in before.requests ==> after.requests[r] == before.requests[r])
  }

  ghost predicate Repaired(before: Db, after: Db, filter: Option<Id>) {
    && after == before.(requests := after.requests, results := after.results, consumers := after.consumers, flights := after.flights,
                        queue := after.queue)
    && after.flights.Keys == before.flights.Keys && after.consumers.Keys == before.consumers.Keys
    && (forall fp :: fp in before.flights ==>
          after.flights[fp] == if ToDeliver(before, fp, filter) then before.flights[fp].(active := false) else before.flights[fp])
    && (forall r :: r in before.consumers ==> RowsRepaired(before, after, r, filter))
    && QueueRepaired(before, after.queue, filter)
  }

  // Only the leaders of repaired flights leave the queue, if they are still in it.
  ghost predicate QueueRepaired(before: Db, queue: Queue, filter: Option<Id>) {
    && queue.Keys == before.queue.Keys
    && forall r :: r in before.queue ==>
         queue[r] == if before.queue[r].state == InQueue && r in before.consumers && before.consumers[r].state == Active
                        && ToDeliver(before, before.consumers[r].fingerprint, filter)
                        && before.flights[before.consumers[r].fingerprint].leader == r
                     then before.queue[r].(state := Withdrawn) else before.queue[r]
  }

  lemma DeliveredRow(db: Db, done: set<Id>, r: Id)
    requires r in db.consumers && db.consumers[r].state == Active && db.consumers[r].fingerprint in db.flights
    requires var leader := db.flights[db.consumers[r].fingerprint].leader;
             && (r != leader ==> r !in db.results) && (db.consumers[r].fingerprint in done ==> leader in db.results)
    ensures var after, fp := Deliver(db, done), db.consumers[r].fingerprint;
            var leader := db.flights[fp].leader;
            && r in after.consumers && fp in after.flights
            && if fp in done then
                 r in after.results && after.results[r] == db.results[leader]
                 && after.consumers[r] == db.consumers[r].(state := Completed(leader)) && after.flights[fp] == db.flights[fp].(active := false)
               else
                 after.consumers[r] == db.consumers[r] && after.flights[fp] == db.flights[fp] && (r in after.results <==> r in db.results)
  {
  }

  lemma DeliveredRequest(db: Db, done: set<Id>, r: Id)
    requires RequestsOk(db.requests, db.results) && r in db.consumers && db.consumers[r].state == Active && r in db.requests
    requires db.consumers[r].fingerprint in db.flights
    requires var leader := db.flights[db.consumers[r].fingerprint].leader;
             && (r != leader ==> r !in db.results) && (db.consumers[r].fingerprint in done ==> leader in db.results)
    ensures var after, fp := Deliver(db, done), db.consumers[r].fingerprint;
            && r in after.requests
            && if fp in done then after.requests[r] == db.requests[r].(state := StateOf(db.results[db.flights[fp].leader].kind))
               else after.requests[r] == db.requests[r] && (r in db.results ==> after.results[r] == db.results[r])
  {
  }

  lemma RestingRow(db: Db, done: set<Id>, r: Id)
    requires r in db.consumers && db.consumers[r].state != Active
    ensures var after := Deliver(db, done);
            && r in after.consumers && after.consumers[r] == db.consumers[r]
            && (r in after.results <==> r in db.results) && (r in db.results ==> after.results[r] == db.results[r])
            && (r in after.requests <==> r in db.requests) && (r in db.requests ==> after.requests[r] == db.requests[r])
  {
    hide EndFlights, WithdrawLeaders, Receivers, DeliverRequests, DeliverResults, DeliverConsumers;
    NotReceiver(db.consumers, db.flights, done, r);
    UnownedRows(db.requests, db.results, db.consumers, Receivers(db.consumers, db.flights, done), r);
  }

  lemma NotReceiver(consumers: Consumers, flights: Flights, done: set<Id>, r: Id)
    requires r in consumers && consumers[r].state != Active
    ensures r !in Receivers(consumers, flights, done)
  {
  }

  lemma UnownedRows(requests: Requests, results: Results, consumers: Consumers, owners: map<Id, Id>, r: Id)
    requires r !in owners && r in consumers
    ensures r in DeliverConsumers(consumers, owners) && DeliverConsumers(consumers, owners)[r] == consumers[r]
    ensures r in DeliverResults(results, owners) <==> r in results
    ensures r in results ==> DeliverResults(results, owners)[r] == results[r]
    ensures r in DeliverRequests(requests, results, owners) <==> r in requests
    ensures r in requests ==> DeliverRequests(requests, results, owners)[r] == requests[r]
  {
  }

  lemma DeliveredTables(db: Db, done: set<Id>)
    ensures var after := Deliver(db, done);
            && after.flights == EndFlights(db.flights, done) && after.consumers.Keys == db.consumers.Keys
            && after.queue == WithdrawLeaders(db.queue, Receivers(db.consumers, db.flights, done))
            && after == db.(requests := after.requests, results := after.results, consumers := after.consumers, flights := after.flights,
                            queue := after.queue)
  {
    hide EndFlights, WithdrawLeaders, Receivers, DeliverRequests, DeliverResults;
  }

  // An active consumer and its leader in tables of the right shape.
  lemma ShapeConsumer(db: Db, g: nat, r: Id)
    requires Shape(db, g) && r in db.consumers && db.consumers[r].state == Active
    ensures r in db.requests && RequestsOk(db.requests, db.results)
    ensures var fp := db.consumers[r].fingerprint;
            fp in db.flights && db.flights[fp].active && (r != db.flights[fp].leader ==> r !in db.results)
  {
    hide QueueOk, OwnersOk, AttemptsOk, OneActive, ReservationsOk, Accounting, HoldingsOk, StartsOk, SuccessOk, EpisodesOk, SendersOk;
  }

  lemma WithdrawalRepairs(db: Db, filter: Option<Id>, done: set<Id>)
    requires forall fp :: fp in done <==> ToDeliver(db, fp, filter)
    ensures QueueRepaired(db, WithdrawLeaders(db.queue, Receivers(db.consumers, db.flights, done)), filter)
  {
  }

  lemma DeliveryRepairs(db: Db, g: nat, filter: Option<Id>, done: set<Id>)
    requires Shape(db, g) && forall fp :: fp in done <==> ToDeliver(db, fp, filter)
    ensures Repaired(db, Deliver(db, done), filter)
  {
    hide Shape, Deliver, RequestsOk, QueueRepaired;
    DeliveredTables(db, done);
    WithdrawalRepairs(db, filter, done);
    forall r | r in db.consumers
      ensures RowsRepaired(db, Deliver(db, done), r, filter)
    {
      if db.consumers[r].state == Active {
        ShapeConsumer(db, g, r);
        DeliveredRow(db, done, r);
        DeliveredRequest(db, done, r);
      } else {
        RestingRow(db, done, r);
      }
    }
  }

  // With nothing to deliver, reconciliation changes nothing.
  lemma NothingToDeliver(db: Db, g: nat, filter: Option<Id>)
    requires Shape(db, g) && forall fp :: !ToDeliver(db, fp, filter)
    ensures Reconcile(db, filter) == Commit(db, ())
  {
    hide Shape, Deliverable, AttemptFault, LeaderFinished, Reconcilable, Deliver;
    var active := set fp | fp in db.flights && db.flights[fp].active && (filter == None || filter == Some(fp));
    forall fp | fp in active
      ensures Reconcilable(db, fp) && !LeaderFinished(db, fp)
    {
      assert !ToDeliver(db, fp, filter);
      ReconcilableIff(db, g, fp);
    }
    assert (set fp | fp in active && LeaderFinished(db, fp)) == {};
    DeliverNothing(db);
  }

  lemma RepairedIsDone(before: Db, after: Db, g: nat, filter: Option<Id>)
    requires Shape(after, g) && Repaired(before, after, filter) && Shape(before, g)
    ensures forall fp :: !ToDeliver(after, fp, filter)
  {
    hide Shape, QueueRepaired;
    forall fp
      ensures !ToDeliver(after, fp, filter)
    {
      if fp in before.flights && before.flights[fp].active && !ToDeliver(before, fp, filter) {
        FlightLeader(before, g, fp);
        assert RowsRepaired(before, after, before.flights[fp].leader, filter);
      }
    }
  }

  lemma FlightLeader(db: Db, g: nat, fp: Id)
    requires Shape(db, g) && fp in db.flights && db.flights[fp].active
    ensures var leader := db.flights[fp].leader; leader in db.consumers && db.consumers[leader].fingerprint == fp
  {
    hide RequestsOk, ConsumersOk, QueueOk, OwnersOk, AttemptsOk, OneActive, ReservationsOk, Accounting, HoldingsOk, StartsOk, SuccessOk,
         EpisodesOk, SendersOk;
  }

  /** From tables whose only fault is finished leaders, reconciling all flights or those of one fingerprint succeeds exactly
      when every such leader's attempts support its result. Then each of these flights is over and its result delivered to
      exactly its active consumers, nobody else is touched, the shape holds, and a second run does nothing. */
  lemma ReconcileRepairs(db: Db, g: nat, filter: Option<Id>)
    requires Shape(db, g)
    ensures Reconcile(db, filter).Commit? <==> forall fp :: ToDeliver(db, fp, filter) ==> Supported(db, fp)
    ensures Reconcile(db, filter).Commit? ==>
              var after := Reconcile(db, filter).db;
              && Repaired(db, after, filter)
              && Shape(after, g) && (filter == None ==> LeadersQueued(after.requests, after.consumers))
              && Reconcile(after, filter) == Commit(after, ())
  {
    hide Shape, LeadersQueued, Deliverable, AttemptFault, LeaderFinished, Reconcilable, Deliver, Supported, Repaired;
    var active := set fp | fp in db.flights && db.flights[fp].active && (filter == None || filter == Some(fp));
    var done := set fp | fp in active && LeaderFinished(db, fp);
    forall fp | fp in db.flights && db.flights[fp].active
      ensures Deliverable(db, fp) && (Reconcilable(db, fp) <==> Supported(db, fp))
      ensures LeaderFinished(db, fp) <==> db.flights[fp].leader in db.results
      ensures !LeaderFinished(db, fp) ==> Queued(db.requests, db.flights[fp].leader)
    {
      ReconcilableIff(db, g, fp);
    }
    forall fp | !ToDeliver(db, fp, filter) && fp in active
      ensures Supported(db, fp)
    {
      UnfinishedSupported(db, fp);
    }
    if forall fp :: ToDeliver(db, fp, filter) ==> Supported(db, fp) {
      assert forall fp :: fp in active ==> Reconcilable(db, fp);
      CanDeliverThese(db, filter, done);
      DeliverKeepsShape(db, g, done);
      DeliveryRepairs(db, g, filter, done);
      RepairedIsDone(db, Deliver(db, done), g, filter);
      NothingToDeliver(Deliver(db, done), g, filter);
    } else {
      var fp :| ToDeliver(db, fp, filter) && !Supported(db, fp);
      assert fp in active;
    }
  }

  lemma UnfinishedSupported(db: Db, fp: Id)
    requires fp in db.flights && db.flights[fp].leader !in db.results
    ensures Supported(db, fp)
  {
  }

  lemma CanDeliverThese(db: Db, filter: Option<Id>, done: set<Id>)
    requires forall fp :: fp in done ==> ToDeliver(db, fp, filter) && Deliverable(db, fp) && Supported(db, fp)
    ensures CanDeliver(db, done)
  {
    hide Deliverable, AttemptFault;
  }

  lemma DeliverKeepsLease(db: Db, fps: set<Id>)
    ensures Deliver(db, fps).lease == db.lease
  {
  }
}
