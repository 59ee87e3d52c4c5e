/** What happens to one attempt keeps the invariant; where a transaction trusts its caller,
    the invariant is kept exactly under a condition the caller can check. */
module AttemptProofs {
  import opened Basics
  import opened Tables
  import opened Transactions
  import opened Invariant
  import opened GateProofs

  // ---------------------------------------------------------------- attempts of one open request

  // The two tables differ at most in attempts of request `r`.
  ghost predicate SameElsewhere(before: Attempts, after: Attempts, r: Id) {
    && (forall a :: a in before && before[a].request != r ==> a in after && after[a] == before[a])
    && (forall a :: a in after && after[a].request != r ==> a in before && after[a] == before[a])
  }

  lemma SuccessElsewhere(results: Results, consumers: Consumers, requests: Requests, before: Attempts, after: Attempts, r: Id)
    requires SuccessOk(results, consumers, before) && OwnersOk(consumers, results) && RequestsOk(requests, results)
    requires Queued(requests, r) && SameElsewhere(before, after, r)
    ensures SuccessOk(results, consumers, after)
  {
    forall s | s in results && s in consumers && results[s].kind == OutSucceeded && consumers[s].state != Active
      ensures SoundSuccess(after, consumers[s].state.owner)
    {
      var owner := consumers[s].state.owner;
      assert owner != r;
      SoundElsewhere(before, after, r, owner);
    }
  }

  lemma SoundElsewhere(before: Attempts, after: Attempts, r: Id, owner: Id)
    requires SameElsewhere(before, after, r) && owner != r && SoundSuccess(before, owner)
    ensures SoundSuccess(after, owner)
  {
    var last :| last in before && before[last].request == owner && before[last].state == AttSucceeded
      && forall b :: b in before && before[b].request == owner ==> before[b].number <= before[last].number;
    assert last in after && after[last] == before[last];
  }

  // ---------------------------------------------------------------- a new attempt

  // A reserved attempt may be added for `r`: claimed, queued, with no other live attempt.
  ghost predicate Fits(attempts: Attempts, queue: Queue, requests: Requests, a: Id, attempt: Attempt, g: nat) {
    && a !in attempts && attempt.state == Reserved && attempt.generation <= g
    && Queued(requests, attempt.request)
    && attempt.request in queue && queue[attempt.request].state == Dequeued
    && attempt.number == NextNumber(attempts, attempt.request)
    && !HasActiveAttempt(attempts, attempt.request)
  }

  lemma NumberIsNew(attempts: Attempts, r: Id)
    ensures forall b :: b in attempts && attempts[b].request == r ==> attempts[b].number < NextNumber(attempts, r)
  {
    var numbers := set a | a in attempts && attempts[a].request == r :: attempts[a].number;
    forall b | b in attempts && attempts[b].request == r
      ensures attempts[b].number < NextNumber(attempts, r)
    {
      assert attempts[b].number in numbers;
    }
  }

  lemma AddAttempt(attempts: Attempts, queue: Queue, requests: Requests, a: Id, attempt: Attempt, g: nat)
    requires AttemptsOk(attempts, queue, requests, g) && OneActive(attempts)
    requires Fits(attempts, queue, requests, a, attempt, g)
    ensures AttemptsOk(attempts[a := attempt], queue, requests, g) && OneActive(attempts[a := attempt])
  {
    NumberIsNew(attempts, attempt.request);
  }

  lemma AddAttemptHoldings(attempts: Attempts, reservations: Reservations, scopes: HeldScopes, requests: Requests,
                           a: Id, attempt: Attempt, g: nat)
    requires HoldingsOk(attempts, reservations, requests) && ReservationsOk(reservations, scopes, attempts, g)
    requires a !in attempts && attempt.state == Reserved
    ensures HoldingsOk(attempts[a := attempt], reservations, requests)
    ensures ReservationsOk(reservations, scopes, attempts[a := attempt], g)
    ensures !HasReservation(reservations, a)
  {
  }

  lemma AddAttemptSenders(history: History, attempts: Attempts, flights: Flights, a: Id, attempt: Attempt)
    requires SendersOk(history, attempts, flights) && a !in attempts
    ensures SendersOk(history, attempts[a := attempt], flights)
  {
  }

  lemma AddAttemptKeepsInv(db: Db, a: Id, attempt: Attempt)
    requires Inv(db) && Fits(db.attempts, db.queue, db.requests, a, attempt, GenerationOf(db.lease))
    ensures Inv(db.(attempts := db.attempts[a := attempt]))
    ensures !HasReservation(db.reservations, a)
  {
    hide RequestsOk, ConsumersOk, FlightsOk, QueueOk, OwnersOk, AttemptsOk, OneActive, ReservationsOk, Accounting,
         HoldingsOk, StartsOk, SuccessOk, EpisodesOk, SendersOk, LeadersQueued;
    AddAttempt(db.attempts, db.queue, db.requests, a, attempt, GenerationOf(db.lease));
    AddAttemptHoldings(db.attempts, db.reservations, db.scopes, db.requests, a, attempt, GenerationOf(db.lease));
    AddAttemptSenders(db.history, db.attempts, db.flights, a, attempt);
    SuccessElsewhere(db.results, db.consumers, db.requests, db.attempts, db.attempts[a := attempt], attempt.request);
  }

  /** Reserving an attempt keeps the invariant exactly when the request has been claimed. */
  lemma ReserveKeepsInvIff(db: Db, a: Id, r: Id, token: Token, now: Time)
    requires Inv(db) && ReserveAttempt(db, a, r, token, now).Commit?
    ensures Inv(ReserveAttempt(db, a, r, token, now).db) <==> r in db.queue && db.queue[r].state == Dequeued
  {
    var attempt := Attempt(r, NextNumber(db.attempts, r), token.generation, now, Reserved, false);
    ReserveFacts(db, a, r, token, now);
    hide Inv, ReserveAttempt, NextNumber;
    if r in db.queue && db.queue[r].state == Dequeued {
      AddAttemptKeepsInv(db, a, attempt);
    } else {
      UnclaimedBreaks(ReserveAttempt(db, a, r, token, now).db, a);
    }
  }

  lemma ReserveFacts(db: Db, a: Id, r: Id, token: Token, now: Time)
    requires ReserveAttempt(db, a, r, token, now).Commit?
    ensures var attempt := Attempt(r, NextNumber(db.attempts, r), token.generation, now, Reserved, false);
            && ReserveAttempt(db, a, r, token, now) == Commit(db.(attempts := db.attempts[a := attempt]), attempt)
            && Queued(db.requests, r) && a !in db.attempts && !HasActiveAttempt(db.attempts, r)
            && token.generation == GenerationOf(db.lease)
  {
  }

  lemma UnclaimedBreaks(db: Db, a: Id)
    requires a in db.attempts && db.attempts[a].state == Reserved
    requires !(db.attempts[a].request in db.queue && db.queue[db.attempts[a].request].state == Dequeued)
    ensures !Inv(db)
  {
    hide RequestsOk, ConsumersOk, FlightsOk, QueueOk, OwnersOk, OneActive, ReservationsOk, Accounting,
         HoldingsOk, StartsOk, SuccessOk, EpisodesOk, SendersOk, LeadersQueued;
  }

  // ---------------------------------------------------------------- acquiring the gates

  lemma HoldReservation(attempts: Attempts, reservations: Reservations, scopes: HeldScopes, g: nat,
                        v: Id, reservation: Reservation, keys: Keys)
    requires ReservationsOk(reservations, scopes, attempts, g)
    requires v !in reservations && !HasReservation(reservations, reservation.attempt)
    requires reservation.attempt in attempts && attempts[reservation.attempt].request == reservation.request
    requires attempts[reservation.attempt].state == Reserved
    requires attempts[reservation.attempt].generation == reservation.generation <= g
    ensures ReservationsOk(reservations[v := reservation], scopes[v := keys], attempts, g)
  {
  }

  // What was said of attempts by the other reservations stays true when `v` is added.
  lemma MoreReservations(reservations: Reservations, v: Id, reservation: Reservation, a: Id)
    requires v !in reservations
    ensures HasHoldingReservation(reservations, a) ==> HasHoldingReservation(reservations[v := reservation], a)
    ensures HasReleasedReservation(reservations, a) ==> HasReleasedReservation(reservations[v := reservation], a)
  {
    var after := reservations[v := reservation];
    if HasHoldingReservation(reservations, a) {
      var w :| w in reservations && reservations[w].attempt == a && reservations[w].state == Holding;
      assert w in after && after[w] == reservations[w];
    }
    if HasReleasedReservation(reservations, a) {
      var w :| w in reservations && reservations[w].attempt == a && reservations[w].state == Released;
      assert w in after && after[w] == reservations[w];
    }
  }

  lemma HoldKeepsHoldings(attempts: Attempts, reservations: Reservations, requests: Requests, v: Id, reservation: Reservation)
    requires HoldingsOk(attempts, reservations, requests) && v !in reservations
    ensures HoldingsOk(attempts, reservations[v := reservation], requests)
  {
    hide HasHoldingReservation, HasReleasedReservation;
    forall a {
      MoreReservations(reservations, v, reservation, a);
    }
  }

  lemma HoldKeepsInv(db: Db, v: Id, a: Id, keys: Keys, policy: GatePolicy, now: Time)
    requires Inv(db) && a in db.attempts && db.attempts[a].state == Reserved
    requires v !in db.reservations && !HasReservation(db.reservations, a)
    requires FirstBlocked(SCOPE_ORDER, db, keys, policy, now).None?
    ensures var reservation := Reservation(a, db.attempts[a].request, db.attempts[a].generation, now, Holding);
            Inv(db.(reservations := db.reservations[v := reservation], scopes := db.scopes[v := keys],
                    gates := Raised(db.gates, KeySet(keys), now), starts := WithStart(db.starts, KeySet(keys), now)))
  {
    hide RequestsOk, ConsumersOk, FlightsOk, QueueOk, OwnersOk, AttemptsOk, OneActive, ReservationsOk, Accounting,
         HoldingsOk, StartsOk, SuccessOk, EpisodesOk, SendersOk, LeadersQueued;
    var reservation := Reservation(a, db.attempts[a].request, db.attempts[a].generation, now, Holding);
    AttemptGeneration(db.attempts, db.queue, db.requests, GenerationOf(db.lease), a);
    HoldReservation(db.attempts, db.reservations, db.scopes, GenerationOf(db.lease), v, reservation, keys);
    HoldKeepsHoldings(db.attempts, db.reservations, db.requests, v, reservation);
    AcquireKeepsAccounting(db.gates, db.reservations, db.scopes, v, reservation, keys, now);
    AcquireKeepsStarts(db, keys, policy, now);
  }

  lemma AttemptGeneration(attempts: Attempts, queue: Queue, requests: Requests, g: nat, a: Id)
    requires AttemptsOk(attempts, queue, requests, g) && a in attempts
    ensures attempts[a].generation <= g
  {
  }

  // A new attempt beside a live one of the same request.
  ghost predicate SecondLive(db: Db, a: Id, r: Id) {
    a !in db.attempts && HasActiveAttempt(db.attempts, r)
  }

  lemma AcquireFacts(db: Db, v: Id, a: Id, attempt: Attempt, keys: Keys, policy: GatePolicy, token: Token, now: Time)
    requires AcquireGates(db, v, a, attempt, keys, policy, token, now).Commit?
    ensures var r := attempt.request;
            && Queued(db.requests, r) && r in db.queue && db.queue[r].state == Dequeued
            && db.lease.Some? && token.generation == attempt.generation == db.lease.value.generation
            && FirstBlocked(SCOPE_ORDER, db, keys, policy, now).None?
            && v !in db.reservations && !HasReservation(db.reservations, a)
            && (a !in db.attempts ==> attempt.number == NextNumber(db.attempts, r))
            && (a in db.attempts ==> db.attempts[a].state == Reserved && db.attempts[a].request == r
                                     && db.attempts[a].generation == token.generation)
    ensures var attempts := if a in db.attempts then db.attempts else db.attempts[a := attempt.(state := Reserved, rawEligible := false)];
            AcquireGates(db, v, a, attempt, keys, policy, token, now).db
            == db.(attempts := attempts,
                   reservations := db.reservations[v := Reservation(a, attempt.request, token.generation, now, Holding)],
                   scopes := db.scopes[v := keys],
                   gates := Raised(db.gates, KeySet(keys), now), starts := WithStart(db.starts, KeySet(keys), now))
  {
  }

  /** Acquiring the gates keeps the invariant exactly when it does not add a second live attempt. */
  lemma AcquireKeepsInvIff(db: Db, v: Id, a: Id, attempt: Attempt, keys: Keys, policy: GatePolicy, token: Token, now: Time)
    requires Inv(db) && AcquireGates(db, v, a, attempt, keys, policy, token, now).Commit?
    ensures Inv(AcquireGates(db, v, a, attempt, keys, policy, token, now).db) <==> !SecondLive(db, a, attempt.request)
  {
    AcquireFacts(db, v, a, attempt, keys, policy, token, now);
    hide Inv, AcquireGates, FirstBlocked, Raised, WithStart, NextNumber, HasReservation, HasActiveAttempt, KeySet;
    if SecondLive(db, a, attempt.request) {
      SecondLiveBreaks(db, AcquireGates(db, v, a, attempt, keys, policy, token, now).db, a, attempt.(state := Reserved, rawEligible := false));
    } else if a in db.attempts {
      HoldKeepsInv(db, v, a, keys, policy, now);
    } else {
      AcquireNewKeepsInv(db, v, a, attempt.(state := Reserved, rawEligible := false), keys, policy, now);
    }
  }

  lemma AcquireNewKeepsInv(db: Db, v: Id, a: Id, added: Attempt, keys: Keys, policy: GatePolicy, now: Time)
    requires Inv(db) && Fits(db.attempts, db.queue, db.requests, a, added, GenerationOf(db.lease))
    requires v !in db.reservations && FirstBlocked(SCOPE_ORDER, db, keys, policy, now).None?
    ensures Inv(db.(attempts := db.attempts[a := added],
                    reservations := db.reservations[v := Reservation(a, added.request, added.generation, now, Holding)],
                    scopes := db.scopes[v := keys],
                    gates := Raised(db.gates, KeySet(keys), now), starts := WithStart(db.starts, KeySet(keys), now)))
  {
    hide Inv, FirstBlocked, Raised, WithStart, NextNumber, HasReservation, HasActiveAttempt, KeySet;
    AddAttemptKeepsInv(db, a, added);
    var ready := db.(attempts := db.attempts[a := added]);
    SameGates(SCOPE_ORDER, db, ready, keys, policy, now);
    HoldKeepsInv(ready, v, a, keys, policy, now);
  }

  lemma SameGates(order: seq<Scope>, db: Db, db': Db, keys: Keys, policy: GatePolicy, now: Time)
    requires db'.gates == db.gates && db'.starts == db.starts
    ensures FirstBlocked(order, db, keys, policy, now) == FirstBlocked(order, db', keys, policy, now)
  {
  }

  lemma SecondLiveBreaks(db: Db, after: Db, a: Id, added: Attempt)
    requires SecondLive(db, a, added.request) && IsActive(added.state)
    requires after.attempts == db.attempts[a := added]
    ensures !Inv(after)
  {
    hide RequestsOk, ConsumersOk, FlightsOk, QueueOk, OwnersOk, AttemptsOk, ReservationsOk, Accounting,
         HoldingsOk, StartsOk, SuccessOk, EpisodesOk, SendersOk, LeadersQueued;
    var b :| b in db.attempts && db.attempts[b].request == added.request && IsActive(db.attempts[b].state);
    assert b in after.attempts && a in after.attempts;
  }
}
