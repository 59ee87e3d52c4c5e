/**
The joint invariant of the tables. Each part names only the tables it speaks of,
so a transaction that leaves those alone keeps that part for free.
*/
module Invariant {
  import opened Basics
  import opened Tables
  import opened Transactions

  // A request has a result exactly when it is no longer queued, and its state is the result's.
  ghost predicate RequestsOk(requests: Requests, results: Results) {
    && results.Keys <= requests.Keys
    && forall r :: r in requests ==>
         && (r in results <==> requests[r].state != ReqQueued)
         && (r in results ==> requests[r].state == StateOf(results[r].kind))
  }

  ghost predicate ConsumersOk(requests: Requests, consumers: Consumers, audited: set<Id>) {
    && consumers.Keys == requests.Keys
    && forall r :: r in consumers ==>
         && consumers[r].fingerprint == requests[r].fingerprint
         && r in audited
         && (requests[r].state == ReqQueued ==> consumers[r].state == Active)
         && (consumers[r].state == Active && consumers[r].role == Follower ==> requests[r].state == ReqQueued)
  }

  // The one part a flight with a finished leader breaks until its result is delivered.
  ghost predicate LeadersQueued(requests: Requests, consumers: Consumers) {
    forall r :: r in consumers && consumers[r].state == Active ==> Queued(requests, r)
  }

  ghost predicate FlightsOk(flights: Flights, consumers: Consumers) {
    && (forall fp :: fp in flights && flights[fp].active ==>
          && flights[fp].leader in consumers
          && consumers[flights[fp].leader].fingerprint == fp
          && consumers[flights[fp].leader].role == Leader
          && consumers[flights[fp].leader].state == Active)
    && (forall r :: r in consumers ==>
          && consumers[r].fingerprint in flights
          && (consumers[r].state == Active ==>
                && flights[consumers[r].fingerprint].active
                && (consumers[r].role == Leader <==> flights[consumers[r].fingerprint].leader == r)
                && flights[consumers[r].fingerprint].leader in consumers
                && consumers[flights[consumers[r].fingerprint].leader].domain == consumers[r].domain))
  }

  ghost predicate QueueOk(queue: Queue, consumers: Consumers, requests: Requests) {
    && (forall r :: r in queue ==>
          && r in consumers && r in requests
          && consumers[r].role == Leader
          && queue[r].domain == consumers[r].domain && queue[r].task == requests[r].task
          && (queue[r].state == InQueue ==> consumers[r].state == Active))
    && (forall r :: r in consumers && consumers[r].role == Leader && consumers[r].state == Active ==>
          r in queue && (queue[r].state == InQueue || queue[r].state == Dequeued))
  }

  // A completed consumer holds the result of the leader it names.
  ghost predicate OwnersOk(consumers: Consumers, results: Results) {
    forall r :: r in consumers && consumers[r].state.Completed? ==>
      var owner := consumers[r].state.owner;
      && owner in consumers && r in results && owner in results
      && consumers[owner].state == Completed(owner)
      && consumers[owner].fingerprint == consumers[r].fingerprint
      && results[r] == results[owner]
  }

  // Attempts belong to requests that have left the queue; a live one to a claimed, queued request.
  ghost predicate AttemptsOk(attempts: Attempts, queue: Queue, requests: Requests, generation: nat) {
    forall a :: a in attempts ==>
      && attempts[a].request in queue && attempts[a].request in requests
      && queue[attempts[a].request].state != InQueue
      && attempts[a].generation <= generation
      && (IsActive(attempts[a].state) ==>
            requests[attempts[a].request].state == ReqQueued && queue[attempts[a].request].state == Dequeued)
  }

  // Sequence numbers are unique within a request, and at most one attempt of it is live.
  ghost predicate OneActive(attempts: Attempts) {
    forall a, b | a in attempts && b in attempts && attempts[a].request == attempts[b].request ::
      (attempts[a].number == attempts[b].number ==> a == b)
      && (IsActive(attempts[a].state) && IsActive(attempts[b].state) ==> a == b)
  }

  ghost predicate ReservationsOk(reservations: Reservations, scopes: HeldScopes, attempts: Attempts, generation: nat) {
    && reservations.Keys == scopes.Keys
    && (forall v :: v in reservations ==>
          && reservations[v].attempt in attempts
          && attempts[reservations[v].attempt].request == reservations[v].request
          && reservations[v].generation <= generation
          && scopes[v].Keys == ALL_SCOPES
          && (reservations[v].state == Holding ==>
                && IsActive(attempts[reservations[v].attempt].state)
                && attempts[reservations[v].attempt].generation == reservations[v].generation))
    && (forall v, w | v in reservations && w in reservations ::
          reservations[v].attempt == reservations[w].attempt ==> v == w)
  }

  function ActiveCount(gates: Gates, k: GateKey): nat {
    GateOf(gates, k).active
  }

  // The count on every gate is the number of reservations holding it.
  ghost predicate Accounting(gates: Gates, reservations: Reservations, scopes: HeldScopes) {
    forall k :: ActiveCount(gates, k) == |Holders(HeldBy(reservations), scopes, k)|
  }

  predicate HasHoldingReservation(reservations: Reservations, a: Id) {
    exists v :: v in reservations && reservations[v].attempt == a && reservations[v].state == Holding
  }

  // A started attempt still holds its gates; a finished one of an open request gave them back properly.
  ghost predicate HoldingsOk(attempts: Attempts, reservations: Reservations, requests: Requests) {
    forall a :: a in attempts ==>
      && (attempts[a].state == Started ==> HasHoldingReservation(reservations, a))
      && (!IsActive(attempts[a].state) && Queued(requests, attempts[a].request) ==>
            HasReleasedReservation(reservations, a))
  }

  ghost predicate Nondecreasing(times: seq<Time>) {
    forall i, j :: 0 <= i < j < |times| ==> times[i] <= times[j]
  }

  ghost predicate StartsOk(gates: Gates, starts: Starts) {
    && gates.Keys == starts.Keys
    && forall k :: k in starts ==>
         && starts[k] != [] && Nondecreasing(starts[k])
         && gates[k].lastStarted == Some(starts[k][|starts[k]| - 1])
  }

  /** The attempts of `r` end in a success, with nothing unknown and nothing in flight. */
  ghost predicate SoundSuccess(attempts: Attempts, r: Id) {
    LastSucceeded(attempts, r) && !HasUnknownAttempt(attempts, r) && !HasActiveAttempt(attempts, r)
  }

  ghost predicate SuccessOk(results: Results, consumers: Consumers, attempts: Attempts) {
    forall r :: r in results && r in consumers && results[r].kind == OutSucceeded && consumers[r].state != Active ==>
      consumers[r].state.Completed? && SoundSuccess(attempts, consumers[r].state.owner)
  }

  ghost predicate EpisodesOk(history: History, consumers: Consumers, flights: Flights) {
    && history.episode.Keys == consumers.Keys
    && forall r :: r in history.episode ==>
         && history.episode[r].number < history.activations
         && history.episode[r].fingerprint == consumers[r].fingerprint
         && (consumers[r].state == Active ==>
               && consumers[r].fingerprint in flights
               && flights[consumers[r].fingerprint].leader in history.episode
               && history.episode[r] == history.episode[flights[consumers[r].fingerprint].leader])
  }

  // In one episode all attempts ever started belong to one request: while the flight lasts, its leader.
  ghost predicate SendersOk(history: History, attempts: Attempts, flights: Flights) {
    && (forall i, j :: 0 <= i < j < |history.started| ==> history.started[i] != history.started[j])
    && (forall a :: a in history.started ==>
          && a in attempts && attempts[a].state != Reserved && attempts[a].request in history.episode)
    && (forall a, b | a in history.started && b in history.started ::
          history.episode[attempts[a].request] == history.episode[attempts[b].request] ==>
            attempts[a].request == attempts[b].request)
    && (forall a, fp | a in history.started && fp in flights && flights[fp].active && flights[fp].leader in history.episode ::
          history.episode[attempts[a].request] == history.episode[flights[fp].leader] ==>
            attempts[a].request == flights[fp].leader)
  }

  /** The shape of the tables under lease generation `g`, while finished leaders may still wait for delivery. */
  ghost predicate Shape(db: Db, g: nat) {
    && RequestsOk(db.requests, db.results)
    && ConsumersOk(db.requests, db.consumers, db.audited)
    && FlightsOk(db.flights, db.consumers)
    && QueueOk(db.queue, db.consumers, db.requests)
    && OwnersOk(db.consumers, db.results)
    && AttemptsOk(db.attempts, db.queue, db.requests, g)
    && OneActive(db.attempts)
    && ReservationsOk(db.reservations, db.scopes, db.attempts, g)
    && Accounting(db.gates, db.reservations, db.scopes)
    && HoldingsOk(db.attempts, db.reservations, db.requests)
    && StartsOk(db.gates, db.starts)
    && SuccessOk(db.results, db.consumers, db.attempts)
    && EpisodesOk(db.history, db.consumers, db.flights)
    && SendersOk(db.history, db.attempts, db.flights)
  }

  ghost predicate Inv(db: Db) {
    Shape(db, GenerationOf(db.lease)) && LeadersQueued(db.requests, db.consumers)
  }

  lemma EmptyHolds()
    ensures Inv(EMPTY_DB)
  {
    forall k: GateKey
      ensures ActiveCount(EMPTY_DB.gates, k) == |Holders(HeldBy(EMPTY_DB.reservations), EMPTY_DB.scopes, k)|
    {
      assert Holders(HeldBy(EMPTY_DB.reservations), EMPTY_DB.scopes, k) == {};
    }
  }
}
