/** Starting, finishing and discarding one attempt. */
module EndProofs {
  import opened Basics
  import opened Tables
  import opened Transactions
  import opened Invariant
  import opened GateProofs
  import opened AttemptProofs

  // ---------------------------------------------------------------- finishing

  lemma EndAttempt(attempts: Attempts, queue: Queue, requests: Requests, g: nat, a: Id, state: AttemptState, raw: bool)
    requires AttemptsOk(attempts, queue, requests, g) && OneActive(attempts)
    requires a in attempts && !IsActive(state)
    ensures AttemptsOk(attempts[a := attempts[a].(state := state, rawEligible := raw)], queue, requests, g)
    ensures OneActive(attempts[a := attempts[a].(state := state, rawEligible := raw)])
  {
  }

  lemma EndReservation(attempts: Attempts, reservations: Reservations, scopes: HeldScopes, g: nat, v: Id, state: AttemptState, raw: bool)
    requires ReservationsOk(reservations, scopes, attempts, g)
    requires v in reservations && !IsActive(state)
    ensures var a := reservations[v].attempt;
            && a in attempts
            && ReservationsOk(Settle(reservations, {v}, Released), scopes, attempts[a := attempts[a].(state := state, rawEligible := raw)], g)
  {
  }

  lemma SettledOthers(reservations: Reservations, some: set<Id>, state: ReservationState, a: Id)
    requires forall v :: v in some && v in reservations ==> reservations[v].attempt != a
    ensures HasHoldingReservation(reservations, a) ==> HasHoldingReservation(Settle(reservations, some, state), a)
    ensures HasReleasedReservation(reservations, a) ==> HasReleasedReservation(Settle(reservations, some, state), a)
  {
    var after := Settle(reservations, some, state);
    if HasHoldingReservation(reservations, a) {
      var w :| w in reservations && reservations[w].attempt == a && reservations[w].state == Holding;
      assert w in after && after[w] == reservations[w];
    }
    if HasReleasedReservation(reservations, a) {
      var w :| w in reservations && reservations[w].attempt == a && reservations[w].state == Released;
      assert w in after && after[w] == reservations[w];
    }
  }

  lemma EndHoldings(attempts: Attempts, reservations: Reservations, requests: Requests, v: Id, state: AttemptState, raw: bool)
    requires HoldingsOk(attempts, reservations, requests)
    requires v in reservations && reservations[v].attempt in attempts && !IsActive(state)
    ensures var a := reservations[v].attempt;
            HoldingsOk(attempts[a := attempts[a].(state := state, rawEligible := raw)], Settle(reservations, {v}, Released), requests)
  {
    var a := reservations[v].attempt;
    var after := Settle(reservations, {v}, Released);
    assert v in after && after[v].attempt == a && after[v].state == Released;
    assert HasReleasedReservation(after, a);
    hide HasHoldingReservation, HasReleasedReservation, Settle;
    forall b | b in attempts && b != a {
      SettledOthers(reservations, {v}, Released, b);
    }
  }

  lemma EndSenders(history: History, attempts: Attempts, flights: Flights, a: Id, state: AttemptState, raw: bool)
    requires SendersOk(history, attempts, flights) && a in attempts && state != Reserved
    ensures SendersOk(history, attempts[a := attempts[a].(state := state, rawEligible := raw)], flights)
  {
  }

  lemma LoweredStarts(gates: Gates, starts: Starts, scopes: HeldScopes, some: set<Id>)
    requires StartsOk(gates, starts)
    ensures StartsOk(Lowered(gates, scopes, some), starts)
  {
    var after := Lowered(gates, scopes, some);
    assert after.Keys == gates.Keys;
    forall k | k in starts
      ensures after[k].lastStarted == gates[k].lastStarted
    {
    }
  }

  lemma CooledStarts(gates: Gates, starts: Starts, k: GateKey, deadline: Time)
    requires StartsOk(gates, starts)
    ensures StartsOk(CoolDown(gates, k, deadline), starts)
  {
  }

  lemma HoldingFacts(reservations: Reservations, scopes: HeldScopes, attempts: Attempts, g: nat, v: Id)
    requires ReservationsOk(reservations, scopes, attempts, g) && v in reservations && reservations[v].state == Holding
    ensures v in HeldBy(reservations) && v in scopes && scopes[v].Keys == ALL_SCOPES && |scopes[v]| == 8 && Provider in scopes[v]
    ensures reservations[v].attempt in attempts && IsActive(attempts[reservations[v].attempt].state)
    ensures attempts[reservations[v].attempt].request == reservations[v].request
  {
    EightScopes();
    assert |scopes[v].Keys| == |scopes[v]|;
    EveryScope(Provider);
  }

  lemma LiveRequest(attempts: Attempts, queue: Queue, requests: Requests, g: nat, a: Id)
    requires AttemptsOk(attempts, queue, requests, g) && a in attempts && IsActive(attempts[a].state)
    ensures Queued(requests, attempts[a].request)
    ensures attempts[a].request in queue && queue[attempts[a].request].state == Dequeued
  {
  }

  // The caller's record names a reservation this generation still holds.
  ghost predicate HoldsRecord(db: Db, v: Id, a: Id, r: Id, g: nat) {
    v in db.reservations && db.reservations[v].(acquiredAt := 0) == Reservation(a, r, g, 0, Holding)
  }

  ghost function Finished(db: Db, v: Id, a: Id, gates: Gates, outcome: AttemptState, raw: bool): Db
    requires a in db.attempts
  {
    db.(gates := gates, reservations := Settle(db.reservations, {v}, Released),
        attempts := db.attempts[a := db.attempts[a].(state := outcome, rawEligible := raw)])
  }

  lemma FinishedKeepsInv(db: Db, v: Id, gates: Gates, outcome: AttemptState, raw: bool)
    requires Inv(db) && v in db.reservations && db.reservations[v].state == Holding && !IsActive(outcome)
    requires StartsOk(gates, db.starts)
    requires Accounting(gates, Settle(db.reservations, {v}, Released), db.scopes)
    ensures db.reservations[v].attempt in db.attempts
    ensures Inv(Finished(db, v, db.reservations[v].attempt, gates, outcome, raw))
  {
    hide RequestsOk, ConsumersOk, FlightsOk, QueueOk, OwnersOk, AttemptsOk, OneActive, ReservationsOk, Accounting,
         HoldingsOk, StartsOk, SuccessOk, EpisodesOk, SendersOk, LeadersQueued, Settle;
    var g, a := GenerationOf(db.lease), db.reservations[v].attempt;
    HoldingFacts(db.reservations, db.scopes, db.attempts, g, v);
    LiveRequest(db.attempts, db.queue, db.requests, g, a);
    EndAttempt(db.attempts, db.queue, db.requests, g, a, outcome, raw);
    EndReservation(db.attempts, db.reservations, db.scopes, g, v, outcome, raw);
    EndHoldings(db.attempts, db.reservations, db.requests, v, outcome, raw);
    EndSenders(db.history, db.attempts, db.flights, a, outcome, raw);
    SuccessElsewhere(db.results, db.consumers, db.requests, db.attempts,
                     db.attempts[a := db.attempts[a].(state := outcome, rawEligible := raw)], db.attempts[a].request);
  }

  lemma FinishBranches(db: Db, v: Id, a: Id, r: Id, outcome: AttemptState, retryAfter: Option<nat>, raw: bool, token: Token, now: Time)
    requires Inv(db) && Fence(db.lease, token, now).None?
    ensures var tx := FinishGates(db, v, a, r, outcome, retryAfter, raw, token, now);
            if !HoldsRecord(db, v, a, r, token.generation) then tx == Abort(StaleReservation)
            else
              && a in db.attempts && v in db.scopes && Provider in db.scopes[v]
              && var lowered := Lowered(db.gates, db.scopes, {v});
              && var gates := if retryAfter.None? then lowered
                              else CoolDown(lowered, GateKey(Provider, db.scopes[v][Provider]), now + retryAfter.value);
              && tx == Commit(Finished(db, v, a, gates, outcome, raw), ())
  {
    hide RequestsOk, ConsumersOk, FlightsOk, QueueOk, OwnersOk, AttemptsOk, OneActive, ReservationsOk, Accounting,
         HoldingsOk, StartsOk, SuccessOk, EpisodesOk, SendersOk, LeadersQueued, Settle, Lowered, Releasable, Fence, CoolDown;
    if HoldsRecord(db, v, a, r, token.generation) {
      HoldingFacts(db.reservations, db.scopes, db.attempts, GenerationOf(db.lease), v);
      HeldIsReleasable(db.gates, db.reservations, db.scopes, {v});
    }
  }

  /** Under a valid fence, finishing succeeds exactly for a reservation this generation still holds;
      the gate counts are never found wrong. */
  lemma FinishTotal(db: Db, v: Id, a: Id, r: Id, outcome: AttemptState, retryAfter: Option<nat>, raw: bool, token: Token, now: Time)
    requires Inv(db) && Fence(db.lease, token, now).None? && !IsActive(outcome)
    ensures var tx := FinishGates(db, v, a, r, outcome, retryAfter, raw, token, now);
            && (tx.Commit? <==> HoldsRecord(db, v, a, r, token.generation))
            && (tx.Abort? ==> tx.fault == StaleReservation)
            && (tx.Commit? ==> Inv(tx.db))
  {
    hide RequestsOk, ConsumersOk, FlightsOk, QueueOk, OwnersOk, AttemptsOk, OneActive, ReservationsOk, Accounting,
         HoldingsOk, StartsOk, SuccessOk, EpisodesOk, SendersOk, LeadersQueued, Settle, Lowered, FinishGates, Fence, CoolDown, Finished;
    FinishBranches(db, v, a, r, outcome, retryAfter, raw, token, now);
    if HoldsRecord(db, v, a, r, token.generation) {
      HoldingFacts(db.reservations, db.scopes, db.attempts, GenerationOf(db.lease), v);
      var lowered := Lowered(db.gates, db.scopes, {v});
      ReleaseKeepsAccounting(db.gates, db.reservations, db.scopes, {v}, Released);
      LoweredStarts(db.gates, db.starts, db.scopes, {v});
      if retryAfter.Some? {
        var k := GateKey(Provider, db.scopes[v][Provider]);
        CoolDownKeepsAccounting(lowered, k, now + retryAfter.value, Settle(db.reservations, {v}, Released), db.scopes);
        CooledStarts(lowered, db.starts, k, now + retryAfter.value);
        FinishedKeepsInv(db, v, CoolDown(lowered, k, now + retryAfter.value), outcome, raw);
      } else {
        FinishedKeepsInv(db, v, lowered, outcome, raw);
      }
    }
  }

  // ---------------------------------------------------------------- discarding

  lemma DropAttempt(attempts: Attempts, queue: Queue, requests: Requests, g: nat, a: Id)
    requires AttemptsOk(attempts, queue, requests, g) && OneActive(attempts)
    ensures AttemptsOk(attempts - {a}, queue, requests, g) && OneActive(attempts - {a})
  {
  }

  lemma DropReserved(attempts: Attempts, reservations: Reservations, scopes: HeldScopes, requests: Requests, g: nat, a: Id)
    requires ReservationsOk(reservations, scopes, attempts, g) && HoldingsOk(attempts, reservations, requests)
    requires !HasReservation(reservations, a)
    ensures ReservationsOk(reservations, scopes, attempts - {a}, g) && HoldingsOk(attempts - {a}, reservations, requests)
  {
  }

  lemma DropSenders(history: History, attempts: Attempts, flights: Flights, a: Id)
    requires SendersOk(history, attempts, flights) && a in attempts && attempts[a].state == Reserved
    ensures SendersOk(history, attempts - {a}, flights)
  {
  }

  lemma DiscardKeepsInv(db: Db, a: Id, token: Token, now: Time)
    requires Inv(db) && DiscardAttempt(db, a, token, now).Commit?
    ensures Inv(DiscardAttempt(db, a, token, now).db)
  {
    hide RequestsOk, ConsumersOk, FlightsOk, QueueOk, OwnersOk, AttemptsOk, OneActive, ReservationsOk, Accounting,
         HoldingsOk, StartsOk, SuccessOk, EpisodesOk, SendersOk, LeadersQueued;
    var g := GenerationOf(db.lease);
    LiveRequest(db.attempts, db.queue, db.requests, g, a);
    DropAttempt(db.attempts, db.queue, db.requests, g, a);
    DropReserved(db.attempts, db.reservations, db.scopes, db.requests, g, a);
    DropSenders(db.history, db.attempts, db.flights, a);
    SuccessElsewhere(db.results, db.consumers, db.requests, db.attempts, db.attempts - {a}, db.attempts[a].request);
  }

  // ---------------------------------------------------------------- starting

  lemma StartAttempt(attempts: Attempts, queue: Queue, requests: Requests, g: nat, a: Id)
    requires AttemptsOk(attempts, queue, requests, g) && OneActive(attempts)
    requires a in attempts && attempts[a].state == Reserved
    ensures AttemptsOk(attempts[a := attempts[a].(state := Started)], queue, requests, g)
    ensures OneActive(attempts[a := attempts[a].(state := Started)])
  {
  }

  lemma StartHoldings(attempts: Attempts, reservations: Reservations, scopes: HeldScopes, requests: Requests, g: nat, a: Id)
    requires ReservationsOk(reservations, scopes, attempts, g) && HoldingsOk(attempts, reservations, requests)
    requires a in attempts && attempts[a].state == Reserved && HasHoldingReservation(reservations, a)
    ensures ReservationsOk(reservations, scopes, attempts[a := attempts[a].(state := Started)], g)
    ensures HoldingsOk(attempts[a := attempts[a].(state := Started)], reservations, requests)
  {
  }

  // The attempt being started belongs to the leader of its flight.
  lemma LeaderStarts(flights: Flights, consumers: Consumers, queue: Queue, requests: Requests, audited: set<Id>, r: Id)
    requires FlightsOk(flights, consumers) && QueueOk(queue, consumers, requests) && ConsumersOk(requests, consumers, audited)
    requires Queued(requests, r) && r in queue
    ensures r in consumers && consumers[r].fingerprint in flights && flights[consumers[r].fingerprint] == Flight(r, true)
  {
  }

  lemma StartSenders(history: History, attempts: Attempts, consumers: Consumers, flights: Flights, a: Id)
    requires SendersOk(history, attempts, flights) && EpisodesOk(history, consumers, flights) && FlightsOk(flights, consumers)
    requires a in attempts && attempts[a].state == Reserved
    requires attempts[a].request in consumers && consumers[attempts[a].request].fingerprint in flights
    requires flights[consumers[attempts[a].request].fingerprint] == Flight(attempts[a].request, true)
    ensures SendersOk(history.(started := history.started + [a]), attempts[a := attempts[a].(state := Started)], flights)
  {
    var r := attempts[a].request;
    var fp := consumers[r].fingerprint;
    assert a !in history.started;
    assert r in history.episode && history.episode[r].fingerprint == fp;
    forall b | b in history.started && history.episode[attempts[b].request] == history.episode[r]
      ensures attempts[b].request == r
    {
      assert fp in flights && flights[fp].active && flights[fp].leader == r;
    }
    forall fp' | fp' in flights && flights[fp'].active && flights[fp'].leader in history.episode
                 && history.episode[flights[fp'].leader] == history.episode[r]
      ensures flights[fp'].leader == r
    {
      assert history.episode[flights[fp'].leader].fingerprint == fp;
      assert consumers[flights[fp'].leader].fingerprint == fp';
    }
  }

  lemma StartedEpisodes(history: History, consumers: Consumers, flights: Flights, started: seq<Id>)
    requires EpisodesOk(history, consumers, flights)
    ensures EpisodesOk(history.(started := started), consumers, flights)
  {
  }

  /** Marking an attempt started keeps the invariant exactly when the attempt still holds its gates. */
  lemma MarkKeepsInvIff(db: Db, a: Id, token: Token, now: Time)
    requires Inv(db) && MarkStarted(db, a, token, now).Commit?
    ensures Inv(MarkStarted(db, a, token, now).db) <==> HasHoldingReservation(db.reservations, a)
  {
    hide RequestsOk, ConsumersOk, FlightsOk, QueueOk, OwnersOk, AttemptsOk, OneActive, ReservationsOk, Accounting,
         HoldingsOk, StartsOk, SuccessOk, EpisodesOk, SendersOk, LeadersQueued, HasHoldingReservation;
    var g, r := GenerationOf(db.lease), db.attempts[a].request;
    var after := db.attempts[a := db.attempts[a].(state := Started)];
    if HasHoldingReservation(db.reservations, a) {
      LiveRequest(db.attempts, db.queue, db.requests, g, a);
      StartAttempt(db.attempts, db.queue, db.requests, g, a);
      StartHoldings(db.attempts, db.reservations, db.scopes, db.requests, g, a);
      LeaderStarts(db.flights, db.consumers, db.queue, db.requests, db.audited, r);
      StartSenders(db.history, db.attempts, db.consumers, db.flights, a);
      StartedEpisodes(db.history, db.consumers, db.flights, db.history.started + [a]);
      SuccessElsewhere(db.results, db.consumers, db.requests, db.attempts, after, r);
    } else {
      UngatedBreaks(after, db.reservations, db.requests, a);
    }
  }

  lemma UngatedBreaks(attempts: Attempts, reservations: Reservations, requests: Requests, a: Id)
    requires a in attempts && attempts[a].state == Started && !HasHoldingReservation(reservations, a)
    ensures !HoldingsOk(attempts, reservations, requests)
  {
  }
}
