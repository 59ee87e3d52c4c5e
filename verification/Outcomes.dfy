/** What cancelling, finalising and taking over leave behind, row by row and for every table. */
module Outcomes {
  import opened Basics
  import opened Tables
  import opened Transactions
  import opened Invariant
  import opened DeliveryProofs
  import opened ResultProofs
  import opened CancelProofs
  import opened RecoveryProofs
  import opened Evolution
  import opened Runs
  import opened Safety
  import opened Effects
  import opened Conditions

  // ---------------------------------------------------------------- rows

  // The live attempts of `r` are over: a started one is unknown, a reserved one failed. No other attempt changes.
  ghost predicate LiveEnded(before: Attempts, after: Attempts, r: Id) {
    && after.Keys == before.Keys
    && forall a :: a in before ==>
         after[a] == if before[a].request == r && before[a].state == Started then before[a].(state := AttUnknown)
                     else if before[a].request == r && before[a].state == Reserved then before[a].(state := AttFailed)
                     else before[a]
  }

  // The held reservations of `r`, or of everybody, are recovered. No other reservation changes.
  ghost predicate GivenBack(before: Reservations, after: Reservations, r: Option<Id>) {
    && after.Keys == before.Keys
    && forall v :: v in before ==>
         after[v] == if before[v].state == Holding && (r == None || r == Some(before[v].request)) then before[v].(state := Recovered)
                     else before[v]
  }

  // Only holders are given back; start times and cooldowns stay.
  ghost predicate TimesKept(before: Db, after: Db) {
    && after.starts == before.starts && after.gates.Keys == before.gates.Keys
    && forall k :: k in before.gates ==>
         after.gates[k].lastStarted == before.gates[k].lastStarted && after.gates[k].cooldown == before.gates[k].cooldown
         && after.gates[k].active <= before.gates[k].active
  }

  // Exactly `some` get this result, and the state that goes with it.
  ghost predicate Closed(before: Db, after: Db, some: set<Id>, result: Result) {
    && after.requests.Keys == before.requests.Keys
    && (forall s :: s in before.requests ==>
          if s in some then after.requests[s] == before.requests[s].(state := after.requests[s].state)
                            && Matches(after.requests[s].state, result.kind)
          else after.requests[s] == before.requests[s])
    && after.results.Keys == before.results.Keys + some
    && (forall s :: s in after.results ==> after.results[s] == if s in before.results then before.results[s] else result)
  }

  // Exactly `some` leave, and the promoted follower becomes a leader. No other consumer changes.
  ghost predicate Gone(before: Consumers, after: Consumers, some: set<Id>, promoted: Option<Id>) {
    && after.Keys == before.Keys
    && forall s :: s in before ==>
         after[s] == if s in some then before[s].(state := Left)
                     else if promoted == Some(s) then before[s].(role := Leader) else before[s]
  }

  // Nobody's rows in the other tables change.
  ghost predicate Untouched(before: Db, after: Db) {
    && after.lease == before.lease && after.cursors == before.cursors && after.scopes == before.scopes && after.audited == before.audited
  }

  // ---------------------------------------------------------------- cancellation

  // Some attempt of `r` is no longer merely reserved, so it may have been sent.
  ghost predicate MayBeOut(attempts: Attempts, r: Id) {
    exists a :: a in attempts && attempts[a].request == r && attempts[a].state != Reserved
  }

  // All active consumers of the flight.
  ghost function Passengers(consumers: Consumers, fp: Id): set<Id> {
    set s | s in consumers && consumers[s].fingerprint == fp && consumers[s].state == Active
  }

  ghost predicate FirstToJoin(consumers: Consumers, fp: Id, next: Id) {
    && next in Passengers(consumers, fp) && consumers[next].role == Follower
    && forall s :: s in Passengers(consumers, fp) && consumers[s].role == Follower ==>
         consumers[next].joinedAt < consumers[s].joinedAt || (consumers[next].joinedAt == consumers[s].joinedAt && next <= s)
  }

  // A leader leaves: its attempts end, its gates are given back.
  ghost predicate LeaderLeft(db: Db, after: Db, r: Id) {
    LiveEnded(db.attempts, after.attempts, r) && GivenBack(db.reservations, after.reservations, Some(r)) && TimesKept(db, after)
  }

  ghost predicate CancelledAs(db: Db, after: Db, r: Id, reason: Id, now: Time, promoted: Option<Id>)
    requires r in db.consumers && db.consumers[r].fingerprint in db.flights
  {
    var fp := db.consumers[r].fingerprint;
    && Untouched(db, after) && after.history == db.history
    && if db.consumers[r].role == Follower then
         && promoted == None && Closed(db, after, {r}, Result(OutCancelled, now, None)) && Gone(db.consumers, after.consumers, {r}, None)
         && after == db.(requests := after.requests, results := after.results, consumers := after.consumers)
       else if MayBeOut(db.attempts, r) then
         && promoted == None && Closed(db, after, Passengers(db.consumers, fp), Result(OutUnknown, now, Some(reason)))
         && Gone(db.consumers, after.consumers, Passengers(db.consumers, fp), None)
         && LeaderLeft(db, after, r) && after.flights == db.flights[fp := Flight(r, false)] && after.queue == db.queue
       else
         && Closed(db, after, {r}, Result(OutCancelled, now, None)) && Gone(db.consumers, after.consumers, {r}, promoted)
         && LeaderLeft(db, after, r) && r in db.queue
         && match promoted
            case None =>
              && (forall s :: s in Passengers(db.consumers, fp) ==> s == r)
              && after.flights == db.flights[fp := Flight(r, false)] && after.queue == db.queue[r := db.queue[r].(state := Withdrawn)]
            case Some(next) =>
              && FirstToJoin(db.consumers, fp, next) && next in db.requests
              && after.flights == db.flights[fp := Flight(next, true)]
              && after.queue == db.queue[r := db.queue[r].(state := Withdrawn)]
                                        [next := Entry(db.consumers[next].domain, db.requests[next].task, now, InQueue)]
  }

  /** A follower leaves alone. A leader one of whose attempts may have been sent takes everybody with it, with outcome
      unknown and the reason as error. Any other leader leaves alone, cancelled without an error, and the follower that joined
      first takes over, with a new entry in the queue, or the flight ends. A leader's attempts end and its gates are free. */
  lemma CancelRows(db: Db, r: Id, reason: Id, token: Token, now: Time)
    requires Inv(db) && Cancel(db, r, reason, token, now).Commit?
    ensures r in db.consumers && db.consumers[r].fingerprint in db.flights
    ensures CancelledAs(db, Cancel(db, r, reason, token, now).db, r, reason, now, Cancel(db, r, reason, token, now).value)
  {
    hide Inv, Fence, CancelLeader, CancelledAs, CloseRequests, CloseResults, Leave;
    CancelGuard(db, r, reason, token, now);
    CancelTotal(db, r, reason, token, now);
    CancelStatesQueued(db, r);
    OpenResults(db, r);
    FlightKnown(db, r);
    if db.consumers[r].role == Follower {
      FollowerRows(db, r, reason, now);
    } else {
      LeaderRows(db, r, reason, now);
    }
  }

  lemma FollowerRows(db: Db, r: Id, reason: Id, now: Time)
    requires r in db.consumers && db.consumers[r].fingerprint in db.flights && db.consumers[r].role == Follower && r !in db.results
    ensures var after := Close(db, {r}, CancelResult(OutCancelled, now, reason)).(consumers := Leave(db.consumers, {r}));
            CancelledAs(db, after, r, reason, now, None)
  {
    hide CloseRequests, CloseResults, Leave, Closed, Gone;
    ClosedRows(db, {r}, Result(OutCancelled, now, None));
    LeftRows(db.consumers, {r});
    var closed := Close(db, {r}, CancelResult(OutCancelled, now, reason));
    SameClosed(db, closed, closed.(consumers := Leave(db.consumers, {r})), {r}, Result(OutCancelled, now, None));
  }

  lemma ClosedRows(db: Db, some: set<Id>, result: Result)
    ensures Closed(db, Close(db, some, result), some, result)
  {
    assert CloseResults(db.results, some, result).Keys == db.results.Keys + some;
  }

  lemma SameClosed(before: Db, middle: Db, after: Db, some: set<Id>, result: Result)
    requires Closed(before, middle, some, result) && after.requests == middle.requests && after.results == middle.results
    ensures Closed(before, after, some, result)
  {
  }

  lemma LeftRows(consumers: Consumers, some: set<Id>)
    ensures Gone(consumers, Leave(consumers, some), some, None)
  {
  }

  lemma PromotedRows(consumers: Consumers, r: Id, next: Id)
    requires next in consumers && next != r
    ensures var left := Leave(consumers, {r});
            next in left && left[next] == consumers[next] && Gone(consumers, left[next := left[next].(role := Leader)], {r}, Some(next))
  {
  }

  lemma OutIff(attempts: Attempts, r: Id)
    ensures MayHaveBeenSent(attempts, r) <==> MayBeOut(attempts, r)
  {
    if MayBeOut(attempts, r) {
      var a :| a in attempts && attempts[a].request == r && attempts[a].state != Reserved;
      if attempts[a].state == Started {
        assert HasStartedAttempt(attempts, r);
      } else {
        assert !IsActive(attempts[a].state);
        assert HasSentAttempt(attempts, r);
      }
    }
    if HasSentAttempt(attempts, r) {
      var a :| a in attempts && attempts[a].request == r && !IsActive(attempts[a].state);
      assert attempts[a].state != Reserved;
    }
  }

  lemma PassengersAre(consumers: Consumers, fp: Id)
    ensures WaitingSet(consumers, fp) == Passengers(consumers, fp)
  {
  }

  lemma FreedRows(db: Db, r: Id)
    ensures LeaderLeft(db, Freed(db, r), r)
  {
    hide Holders, HeldByRequest;
    HeldAre(db.reservations, r);
  }

  lemma HeldAre(reservations: Reservations, r: Id)
    ensures forall v :: v in HeldByRequest(reservations, r) <==>
              v in reservations && reservations[v].state == Holding && reservations[v].request == r
  {
  }

  lemma SameLeft(before: Db, middle: Db, after: Db, r: Id)
    requires LeaderLeft(before, middle, r) && after.attempts == middle.attempts && after.reservations == middle.reservations
    requires after.gates == middle.gates && after.starts == middle.starts
    ensures LeaderLeft(before, after, r)
  {
  }

  lemma LeaderRows(db: Db, r: Id, reason: Id, now: Time)
    requires Inv(db) && r in db.consumers && db.consumers[r].role == Leader && db.consumers[r].state == Active
    requires db.consumers[r].fingerprint in db.flights && r !in db.results && CancelLeader(db, r, reason, now).Commit?
    ensures CancelledAs(db, CancelLeader(db, r, reason, now).db, r, reason, now, CancelLeader(db, r, reason, now).value)
  {
    hide Inv, CancelLeader, ReplaceLeader, SentCancelled, Replaced, MayHaveBeenSent, NextLeader, CancelledAs;
    var fp := db.consumers[r].fingerprint;
    CancelLeaderBranches(db, r, reason, now);
    LeaderFlight(db, r);
    OutIff(db.attempts, r);
    InvShape(db);
    hide FlightsOk, Shape, LeadersQueued, RequestsOk;
    if MayHaveBeenSent(db.attempts, r) {
      SentRows(db, r, fp, reason, now);
    } else {
      LeaderIsQueued(db, r);
      NextFollower(db.consumers, fp);
      NotItself(db, r);
      ReplacedIs(db, r, reason, now);
      UnsentRows(db, r, fp, NextLeader(db.consumers, fp), reason, now);
    }
  }

  lemma SentRows(db: Db, r: Id, fp: Id, reason: Id, now: Time)
    requires r in db.consumers && db.consumers[r].role == Leader && db.consumers[r].fingerprint == fp && MayBeOut(db.attempts, r)
    requires fp in db.flights && db.flights[fp] == Flight(r, true)
    ensures CancelledAs(db, SentCancelled(db, r, fp, reason, now), r, reason, now, None)
  {
    hide CloseRequests, CloseResults, Leave, Closed, Gone, LeaderLeft, Freed, Passengers, WaitingSet, MayBeOut;
    var freed, result := Freed(db, r), Result(OutUnknown, now, Some(reason));
    var after := SentCancelled(db, r, fp, reason, now);
    PassengersAre(db.consumers, fp);
    FreedRows(db, r);
    FreedFrame(db, r);
    SameLeft(db, freed, after, r);
    ClosedRows(db, WaitingSet(db.consumers, fp), result);
    SameClosed(db, Close(db, WaitingSet(db.consumers, fp), result), after, WaitingSet(db.consumers, fp), result);
    LeftRows(db.consumers, WaitingSet(db.consumers, fp));
  }

  lemma FreedFrame(db: Db, r: Id)
    ensures Freed(db, r) == db.(gates := Freed(db, r).gates, reservations := Freed(db, r).reservations, attempts := Freed(db, r).attempts)
  {
    hide Lowered, Settle, EndLive;
  }

  lemma UnsentRows(db: Db, r: Id, fp: Id, next: Option<Id>, reason: Id, now: Time)
    requires r in db.consumers && db.consumers[r].role == Leader && db.consumers[r].state == Active && r in db.queue
    requires db.consumers[r].fingerprint == fp && !MayBeOut(db.attempts, r)
    requires FlightsOk(db.flights, db.consumers) && fp in db.flights && db.flights[fp] == Flight(r, true)
    requires next == NextLeader(db.consumers, fp) && next != Some(r)
    requires next.Some? ==> next.value in db.consumers && next.value in db.requests
    ensures CancelledAs(db, Replaced(db, r, fp, next, reason, now), r, reason, now, next)
  {
    var result := Result(OutCancelled, now, None);
    var after := Replaced(db, r, fp, next, reason, now);
    hide CloseRequests, CloseResults, Leave, Closed, Gone, LeaderLeft, Freed, Passengers, MayBeOut, FirstToJoin, FlightsOk, NextLeader,
         Replaced, Close;
    FirstIs(db.flights, db.consumers, fp, r);
    ReplacedFields(db, r, fp, next, reason, now);
    FreedRows(db, r);
    SameLeft(db, Freed(db, r), after, r);
    ClosedRows(db, {r}, result);
    SameClosed(db, Close(db, {r}, result), after, {r}, result);
    LeftRows(db.consumers, {r});
    if next.Some? {
      PromotedRows(db.consumers, r, next.value);
    }
  }

  lemma ReplacedFields(db: Db, r: Id, fp: Id, next: Option<Id>, reason: Id, now: Time)
    requires r in db.queue && fp in db.flights && (next.Some? ==> next.value in db.consumers && next.value in db.requests && next.value != r)
    ensures var freed, closed, after := Freed(db, r), Close(db, {r}, Result(OutCancelled, now, None)), Replaced(db, r, fp, next, reason, now);
            && after == db.(gates := freed.gates, reservations := freed.reservations, attempts := freed.attempts,
                            requests := closed.requests, results := closed.results,
                            consumers := after.consumers, queue := after.queue, flights := after.flights)
            && match next
               case None =>
                 && after.consumers == Leave(db.consumers, {r}) && after.queue == db.queue[r := db.queue[r].(state := Withdrawn)]
                 && after.flights == db.flights[fp := db.flights[fp].(active := false)]
               case Some(n) =>
                 var left := Leave(db.consumers, {r});
                 && n in left && left[n] == db.consumers[n] && after.consumers == left[n := left[n].(role := Leader)]
                 && after.queue == db.queue[r := db.queue[r].(state := Withdrawn)]
                                           [n := Entry(db.consumers[n].domain, db.requests[n].task, now, InQueue)]
                 && after.flights == db.flights[fp := db.flights[fp].(leader := n)]
  {
    if next.Some? {
      PromotedRows(db.consumers, r, next.value);
    }
    hide Lowered, Settle, EndLive, CloseRequests, CloseResults, Leave;
  }

  lemma FirstIs(flights: Flights, consumers: Consumers, fp: Id, r: Id)
    requires FlightsOk(flights, consumers) && fp in flights && flights[fp] == Flight(r, true)
    ensures match NextLeader(consumers, fp)
            case None => forall s :: s in Passengers(consumers, fp) ==> s == r
            case Some(next) => FirstToJoin(consumers, fp, next)
  {
    NextFollower(consumers, fp);
    NextIsEarliest(consumers, fp);
    hide NextLeader;
  }

  // ---------------------------------------------------------------- finalisation

  // What finalising the leader `r` of flight `fp` leaves.
  ghost predicate FinalisedAs(db: Db, after: Db, r: Id, fp: Id, result: Result) {
    var some := Passengers(db.consumers, fp);
    && r in some && Closed(db, after, some, result)
    && after.consumers.Keys == db.consumers.Keys
    && (forall s :: s in db.consumers ==>
          after.consumers[s] == if s in some then db.consumers[s].(state := Completed(r)) else db.consumers[s])
    && after.flights == db.flights[fp := Flight(r, false)]
    && after.queue.Keys == db.queue.Keys
    && (forall s :: s in db.queue ==>
          after.queue[s] == if s == r && db.queue[s].state == InQueue then db.queue[s].(state := Withdrawn) else db.queue[s])
    && after == db.(requests := after.requests, results := after.results, consumers := after.consumers, flights := after.flights,
                    queue := after.queue)
  }

  /** Finalising a leader gives its result to exactly the active consumers of its flight, completes them with the leader as
      owner, and ends the flight. A leader nobody claimed leaves the queue. Attempts, gates and all other rows stay. */
  lemma FinalizeRows(db: Db, r: Id, result: Result, token: Token, now: Time)
    requires Inv(db) && Finalize(db, r, result, token, now).Commit?
    ensures r in db.consumers && FinalisedAs(db, Finalize(db, r, result, token, now).db, r, db.consumers[r].fingerprint, result)
  {
    hide Inv, Finalize, Close, Deliver, FinalisedAs, Shape, ToDeliver;
    FinalizeTotal(db, r, result, token, now);
    FinalizeLeader(db, r);
    FinalizeParts(db, r, result, token, now);
    var g, fp := GenerationOf(db.lease), db.consumers[r].fingerprint;
    var persisted, after := Close(db, {r}, result), Finalize(db, r, result, token, now).db;
    InvShape(db);
    InvShape(after);
    PersistKeepsShape(db, r, result);
    OnlyThisFlight(db, r, result);
    DeliveryRepairs(persisted, g, Some(fp), {fp});
    RepairedFinal(db, persisted, after, r, fp, result);
  }

  lemma InvShape(db: Db)
    requires Inv(db)
    ensures Shape(db, GenerationOf(db.lease)) && RequestsOk(db.requests, db.results) && db.consumers.Keys == db.requests.Keys
    ensures FlightsOk(db.flights, db.consumers) && LeadersQueued(db.requests, db.consumers)
  {
    hide FlightsOk, QueueOk, OwnersOk, AttemptsOk, OneActive, ReservationsOk, Accounting, HoldingsOk, StartsOk, SuccessOk, EpisodesOk,
         SendersOk, LeadersQueued, RequestsOk;
  }

  lemma FinalizeLeader(db: Db, r: Id)
    requires Inv(db) && Queued(db.requests, r) && r in db.consumers && db.consumers[r].role == Leader
    ensures db.consumers[r].state == Active && r !in db.results
    ensures db.consumers[r].fingerprint in db.flights && db.flights[db.consumers[r].fingerprint] == Flight(r, true)
    ensures forall s :: s in Passengers(db.consumers, db.consumers[r].fingerprint) ==> s !in db.results
  {
    QueuedLeader(db, r);
    OpenResults(db, r);
    LeaderFlight(db, r);
    UnfinishedWait(db, db.consumers[r].fingerprint);
    PassengersAre(db.consumers, db.consumers[r].fingerprint);
    hide Inv;
  }

  lemma FinalizeParts(db: Db, r: Id, result: Result, token: Token, now: Time)
    requires Finalize(db, r, result, token, now).Commit? && r in db.consumers
    ensures Finalize(db, r, result, token, now).db == Deliver(Close(db, {r}, result), {db.consumers[r].fingerprint})
  {
    hide Close, Deliver, Deliverable, AttemptFault, Fence, Queued;
    CloseKeeps(db, {r}, result);
  }

  lemma CloseKeeps(db: Db, some: set<Id>, result: Result)
    ensures var after := Close(db, some, result);
            after == db.(requests := after.requests, results := after.results)
  {
    hide CloseRequests, CloseResults;
  }

  lemma OnlyThisFlight(db: Db, r: Id, result: Result)
    requires r in db.consumers && db.consumers[r].fingerprint in db.flights && db.flights[db.consumers[r].fingerprint] == Flight(r, true)
    ensures var fp := db.consumers[r].fingerprint;
            forall f :: f in {fp} <==> ToDeliver(Close(db, {r}, result), f, Some(fp))
  {
  }

  lemma RepairedFinal(db: Db, persisted: Db, after: Db, r: Id, fp: Id, result: Result)
    requires persisted == Close(db, {r}, result) && Repaired(persisted, after, Some(fp))
    requires fp in db.flights && db.flights[fp] == Flight(r, true) && r in db.consumers && db.consumers[r].fingerprint == fp
    requires db.consumers[r].state == Active && db.consumers.Keys == db.requests.Keys && after.consumers.Keys == after.requests.Keys
    requires forall s :: s in Passengers(db.consumers, fp) ==> s !in db.results
    requires RequestsOk(db.requests, db.results) && RequestsOk(after.requests, after.results)
    ensures FinalisedAs(db, after, r, fp, result)
  {
    hide Close, RowsRepaired, QueueRepaired, StateOf, RequestsOk, Closed, Repaired, Passengers;
    RepairedParts(persisted, after, Some(fp));
    InPassengers(db.consumers, r);
    ClosedOne(db, r, result);
    CloseKeeps(db, {r}, result);
    FinalQueue(db, persisted, after, r, fp);
    FinalFlights(db, persisted, after, r, fp);
    FinalConsumers(db, persisted, after, r, fp, result);
  }

  lemma InPassengers(consumers: Consumers, r: Id)
    requires r in consumers && consumers[r].state == Active
    ensures r in Passengers(consumers, consumers[r].fingerprint)
  {
  }

  lemma RepairedParts(before: Db, after: Db, filter: Option<Id>)
    requires Repaired(before, after, filter)
    ensures after == before.(requests := after.requests, results := after.results, consumers := after.consumers, flights := after.flights,
                             queue := after.queue)
    ensures after.consumers.Keys == before.consumers.Keys && QueueRepaired(before, after.queue, filter)
    ensures forall s :: s in before.consumers ==> RowsRepaired(before, after, s, filter)
  {
    hide RowsRepaired, QueueRepaired;
  }

  lemma FinalFlights(db: Db, persisted: Db, after: Db, r: Id, fp: Id)
    requires persisted == db.(requests := persisted.requests, results := persisted.results) && r in persisted.results
    requires Repaired(persisted, after, Some(fp)) && fp in db.flights && db.flights[fp] == Flight(r, true)
    ensures after.flights == db.flights[fp := Flight(r, false)]
  {
    hide RowsRepaired, QueueRepaired;
  }

  lemma FinalConsumers(db: Db, persisted: Db, after: Db, r: Id, fp: Id, result: Result)
    requires r in db.requests
    requires persisted == db.(requests := db.requests[r := db.requests[r].(state := StateOf(result.kind))], results := db.results[r := result])
    requires after.consumers.Keys == db.consumers.Keys && forall s :: s in db.consumers ==> RowsRepaired(persisted, after, s, Some(fp))
    requires fp in db.flights && db.flights[fp] == Flight(r, true) && r in db.consumers && db.consumers[r].fingerprint == fp
    requires db.consumers[r].state == Active && db.consumers.Keys == db.requests.Keys && after.consumers.Keys == after.requests.Keys
    requires forall s :: s in Passengers(db.consumers, fp) ==> s !in db.results
    requires RequestsOk(db.requests, db.results) && RequestsOk(after.requests, after.results)
    ensures Closed(db, after, Passengers(db.consumers, fp), result)
    ensures forall s :: s in db.consumers ==>
              s in after.consumers
              && after.consumers[s] == if s in Passengers(db.consumers, fp) then db.consumers[s].(state := Completed(r)) else db.consumers[s]
  {
    KeysWithin(db.requests, db.results);
    KeysWithin(after.requests, after.results);
    hide RequestsOk, RowsRepaired, StateOf, Closed;
    forall s | s in db.consumers
      ensures s in after.consumers && s in after.requests
      ensures after.consumers[s] == if s in Passengers(db.consumers, fp) then db.consumers[s].(state := Completed(r)) else db.consumers[s]
      ensures s in after.results <==> s in db.results || s in Passengers(db.consumers, fp)
      ensures s in after.results ==> after.results[s] == if s in db.results then db.results[s] else result
      ensures after.requests[s] == if s in Passengers(db.consumers, fp) then db.requests[s].(state := StateOf(result.kind))
                                   else db.requests[s]
    {
      RowsRepairedHere(db, persisted, after, r, fp, result, s);
    }
    ClosedFrom(db, after, Passengers(db.consumers, fp), result);
  }

  lemma KeysWithin(requests: Requests, results: Results)
    requires RequestsOk(requests, results)
    ensures results.Keys <= requests.Keys
  {
  }

  lemma ClosedFrom(before: Db, after: Db, some: set<Id>, result: Result)
    requires after.requests.Keys == before.requests.Keys && before.results.Keys <= before.requests.Keys
    requires after.results.Keys <= after.requests.Keys && some <= before.requests.Keys
    requires forall s :: s in before.requests ==>
               && (s in after.results <==> s in before.results || s in some)
               && (s in after.results ==> after.results[s] == if s in before.results then before.results[s] else result)
               && after.requests[s] == if s in some then before.requests[s].(state := StateOf(result.kind)) else before.requests[s]
    ensures Closed(before, after, some, result)
  {
    StateMatches(result.kind);
    hide StateOf, Matches;
    assert after.results.Keys == before.results.Keys + some;
  }

  lemma ClosedOne(db: Db, r: Id, result: Result)
    requires r in db.requests && r !in db.results
    ensures var after := Close(db, {r}, result);
            && after.requests == db.requests[r := db.requests[r].(state := StateOf(result.kind))] && after.results == db.results[r := result]
  {
    assert CloseResults(db.results, {r}, result).Keys == db.results.Keys + {r};
  }

  lemma StateMatches(kind: ResultKind)
    ensures Matches(StateOf(kind), kind)
  {
  }

  lemma RowsRepairedHere(db: Db, persisted: Db, after: Db, r: Id, fp: Id, result: Result, s: Id)
    requires r in db.requests && s in db.requests
    requires persisted == db.(requests := db.requests[r := db.requests[r].(state := StateOf(result.kind))], results := db.results[r := result])
    requires s in db.consumers && RowsRepaired(persisted, after, s, Some(fp))
    requires fp in db.flights && db.flights[fp] == Flight(r, true)
    requires r in db.consumers && db.consumers[r].fingerprint == fp && db.consumers[r].state == Active
    requires s in Passengers(db.consumers, fp) ==> s !in db.results
    ensures s in after.consumers && s in after.requests
    ensures after.consumers[s] == if s in Passengers(db.consumers, fp) then db.consumers[s].(state := Completed(r)) else db.consumers[s]
    ensures s in after.results <==> s in db.results || s in Passengers(db.consumers, fp)
    ensures s in after.results ==> after.results[s] == if s in db.results then db.results[s] else result
    ensures after.requests[s] == if s in Passengers(db.consumers, fp) then db.requests[s].(state := StateOf(result.kind))
                                 else db.requests[s]
  {
  }

  lemma FinalQueue(db: Db, persisted: Db, after: Db, r: Id, fp: Id)
    requires QueueRepaired(persisted, after.queue, Some(fp)) && persisted == db.(requests := persisted.requests, results := persisted.results)
    requires fp in db.flights && db.flights[fp] == Flight(r, true) && r in persisted.results
    requires r in db.consumers && db.consumers[r].fingerprint == fp && db.consumers[r].state == Active
    ensures after.queue.Keys == db.queue.Keys
    ensures forall s :: s in db.queue ==>
              after.queue[s] == if s == r && db.queue[s].state == InQueue then db.queue[s].(state := Withdrawn) else db.queue[s]
  {
  }

  // ---------------------------------------------------------------- taking over

  // Started attempts are unknown, reserved ones go to the new generation, finished ones stay.
  ghost predicate Interrupted(before: Attempts, after: Attempts, generation: nat) {
    && after.Keys == before.Keys
    && forall a :: a in before ==>
         after[a] == if before[a].state == Started then before[a].(state := AttUnknown)
                     else if before[a].state == Reserved then before[a].(generation := generation) else before[a]
  }

  // The result a leader's interruption gives: it was being sent, or it had been sent and was between two attempts.
  ghost predicate EndsWith(attempts: Attempts, leader: Id, now: Time, result: Option<Result>) {
    if exists a :: a in attempts && attempts[a].request == leader && attempts[a].state == Started then
      result == Some(Result(OutUnknown, now, Some(OWNER_INTERRUPTED)))
    else if (exists a :: a in attempts && attempts[a].request == leader)
            && forall a :: a in attempts && attempts[a].request == leader ==> attempts[a].state != Reserved then
      result == Some(Result(if exists a :: a in attempts && attempts[a].request == leader && attempts[a].state == AttUnknown
                            then OutUnknown else OutFailed, now, Some(INTERRUPTED_BETWEEN_ATTEMPTS)))
    else result == None
  }

  lemma EndsWithIs(db: Db, leader: Id, now: Time)
    ensures EndsWith(db.attempts, leader, now, Interruption(db, leader, now))
  {
    NoAttempts(db.attempts, leader);
    ActiveIff(db.attempts, leader);
    hide AttemptsOf, HasActiveAttempt;
  }

  lemma ActiveIff(attempts: Attempts, r: Id)
    ensures HasActiveAttempt(attempts, r) <==>
              exists a :: a in attempts && attempts[a].request == r && (attempts[a].state == Reserved || attempts[a].state == Started)
  {
    if a :| a in attempts && attempts[a].request == r && (attempts[a].state == Reserved || attempts[a].state == Started) {
      assert IsActive(attempts[a].state);
    }
  }

  // What taking over does to the tables as a whole.
  ghost predicate TakenOverAs(db: Db, after: Db, owner: Id, now: Time, duration: nat) {
    var g := GenerationOf(db.lease);
    && after.lease == Some(LeaseRow(owner, g + 1, now, now, now + duration, true))
    && Interrupted(db.attempts, after.attempts, g + 1) && GivenBack(db.reservations, after.reservations, None)
    && TimesKept(db, after) && (forall k :: k in after.gates ==> after.gates[k].active == 0)
    && RequeuedOnly(db, after)
    && after.cursors == db.cursors && after.scopes == db.scopes && after.audited == db.audited && after.history == db.history
  }

  /** Taking over makes started attempts unknown and gives every gate back; claimed requests that never had an attempt return
      to the queue; reserved attempts and unclaimed requests go on under the new generation. */
  lemma TakeOverRows(db: Db, owner: Id, now: Time, duration: nat)
    requires Inv(db) && RecoverLease(db, owner, now, duration).Commit?
    ensures TakenOverAs(db, RecoverLease(db, owner, now, duration).db, owner, now, duration)
  {
    hide Inv, RecoverLease, RequeuedOnly, Interrupt, Reconcile, Deliver, LeaderFinished, GivenBack, Interrupted, TimesKept;
    RecoverGuard(db, owner, now, duration);
    RecoverTotal(db, owner, now, duration);
    RecoverIs(db, owner, now, duration);
    var g, after := GenerationOf(db.lease), RecoverLease(db, owner, now, duration).db;
    var interrupted := Interrupt(db, g, now);
    var done := set fp | fp in interrupted.flights && interrupted.flights[fp].active && LeaderFinished(interrupted, fp);
    ReconcileFrame(interrupted, done);
    DeliverFrame(interrupted, done);
    InvReservations(db);
    InterruptRows(db, g, now);
    NoneActive(db, after);
    hide CalmGates;
    SameTimes(db, interrupted, after);
  }

  lemma InvReservations(db: Db)
    requires Inv(db)
    ensures forall v :: v in db.reservations ==> db.reservations[v].generation <= GenerationOf(db.lease)
    ensures forall a :: a in db.attempts ==> db.attempts[a].generation <= GenerationOf(db.lease)
  {
    hide RequestsOk, ConsumersOk, FlightsOk, QueueOk, OwnersOk, OneActive, Accounting, HoldingsOk, StartsOk, SuccessOk,
         EpisodesOk, SendersOk, LeadersQueued;
  }

  lemma InterruptRows(db: Db, g: nat, now: Time)
    requires forall v :: v in db.reservations ==> db.reservations[v].generation <= g
    requires forall a :: a in db.attempts ==> db.attempts[a].generation <= g
    ensures var after := Interrupt(db, g, now);
            && Interrupted(db.attempts, after.attempts, g + 1) && GivenBack(db.reservations, after.reservations, None)
            && TimesKept(db, after)
            && after.cursors == db.cursors && after.scopes == db.scopes && after.audited == db.audited && after.history == db.history
  {
    hide Holders, Requeue, StartedRequests, BetweenAttempts;
  }

  lemma NoneActive(before: Db, after: Db)
    requires CalmGates(before, after)
    ensures forall k :: k in after.gates ==> after.gates[k].active == 0
  {
    forall k | k in after.gates
      ensures after.gates[k].active == 0
    {
      assert ActiveCount(after.gates, k) == 0;
    }
  }

  lemma SameTimes(before: Db, middle: Db, after: Db)
    requires TimesKept(before, middle) && after.starts == middle.starts && after.gates == middle.gates
    ensures TimesKept(before, after)
  {
  }

  // What an active consumer finds afterwards.
  ghost predicate FindsAfter(db: Db, after: Db, r: Id, result: Option<Result>)
    requires r in db.consumers && db.consumers[r].fingerprint in db.flights
  {
    var fp := db.consumers[r].fingerprint;
    && r in after.consumers && fp in after.flights
    && match result
       case Some(given) =>
         r in after.results && after.results[r] == given && after.flights[fp] == Flight(db.flights[fp].leader, false)
         && after.consumers[r] == db.consumers[r].(state := Completed(db.flights[fp].leader))
       case None => r !in after.results && after.consumers[r] == db.consumers[r] && after.flights[fp] == db.flights[fp]
  }

  /** Everyone waiting for a leader that was interrupted while it was sent, or between two attempts, gets that result from it;
      everyone else waits on. */
  lemma WaitersAfter(db: Db, owner: Id, now: Time, duration: nat, r: Id)
    requires Inv(db) && RecoverLease(db, owner, now, duration).Commit? && r in db.consumers && db.consumers[r].state == Active
    ensures db.consumers[r].fingerprint in db.flights
    ensures exists result ::
              && EndsWith(db.attempts, db.flights[db.consumers[r].fingerprint].leader, now, result)
              && FindsAfter(db, RecoverLease(db, owner, now, duration).db, r, result)
  {
    hide Inv, RecoverLease, EndsWith, Interruption;
    RecoverAffects(db, owner, now, duration, r);
    EndsWithIs(db, db.flights[db.consumers[r].fingerprint].leader, now);
    var result := Interruption(db, db.flights[db.consumers[r].fingerprint].leader, now);
    assert FindsAfter(db, RecoverLease(db, owner, now, duration).db, r, result);
  }

  /** A claimed request whose worker was gone before its first attempt waits again after the takeover, and the new owner's
      claims in its domain find something as long as it does. */
  lemma ClaimedAgain(db: Db, owner: Id, now: Time, duration: nat, r: Id, later: Time)
    requires Inv(db) && RecoverLease(db, owner, now, duration).Commit? && now <= later < now + duration
    requires r in db.queue && db.queue[r].state == Dequeued && r in db.requests && db.requests[r].state == ReqQueued
    requires forall a :: a in db.attempts ==> db.attempts[a].request != r
    ensures var tx := RecoverLease(db, owner, now, duration);
            var claim := Claim(tx.db, db.queue[r].domain, tx.value, later);
            && r in tx.db.queue && tx.db.queue[r] == db.queue[r].(state := InQueue)
            && Queues(tx.db.queue, r, db.queue[r].domain, db.queue[r].task)
            && claim.Commit? && claim.value.Some?
  {
    RecoverGuard(db, owner, now, duration);
    RecoverTotal(db, owner, now, duration);
    var tx := RecoverLease(db, owner, now, duration);
    hide Inv, RecoverLease, CalmGates, InterruptAttempts, Claim;
    ClaimIff(tx.db, db.queue[r].domain, tx.value, later);
  }

  // An attempt that disagrees with its request: sent while its request is closed, over while its request is open although it
  // never gave its gates back properly, or over while its request is closed without a result.
  ghost predicate Disagrees(db: Db, a: Id)
    requires a in db.attempts
  {
    var attempt, r := db.attempts[a], db.attempts[a].request;
    && r in db.requests
    && match attempt.state
       case Reserved => false
       case Started => db.requests[r].state != ReqQueued || r in db.results
       case _ =>
         if db.requests[r].state == ReqQueued
         then forall v :: v in db.reservations && db.reservations[v].attempt == a ==> db.reservations[v].state != Released
         else r !in db.results
  }

  /** On any tables whatever, validation before a takeover stops at an attempt of a later generation, or else at an audit gap
      exactly if some attempt disagrees with its request. */
  lemma RefusalIff(db: Db, generation: nat)
    ensures RecoveryFault(db, generation) == Some(GenerationAnomaly)
            <==> exists a :: a in db.attempts && generation < db.attempts[a].generation
    ensures RecoveryFault(db, generation) == Some(AuditGap)
            <==> (forall a :: a in db.attempts ==> db.attempts[a].generation <= generation)
                 && exists a :: a in db.attempts && Disagrees(db, a)
  {
    forall a | a in db.attempts
      ensures Gap(db, a) <==> Disagrees(db, a)
    {
      GapIff(db, a);
    }
    hide Gap, Disagrees;
  }

  lemma GapIff(db: Db, a: Id)
    requires a in db.attempts
    ensures Gap(db, a) <==> Disagrees(db, a)
  {
  }

  // ---------------------------------------------------------------- reconciliation

  /** Reconciling tables of the right shape succeeds exactly if every finished leader's attempts allow the result it has. */
  lemma ReconcileIff(db: Db, g: nat, filter: Option<Id>)
    requires Shape(db, g)
    ensures Reconcile(db, filter).Commit? <==>
              forall fp :: fp in db.flights && db.flights[fp].active && db.flights[fp].leader in db.results
                           && (filter == None || filter == Some(fp)) ==>
                Allow(db.attempts, db.flights[fp].leader, db.results[db.flights[fp].leader].kind)
  {
    hide Shape, Reconcile, Allow;
    ReconcileRepairs(db, g, filter);
    forall fp | ToDeliver(db, fp, filter)
      ensures Supported(db, fp) <==> Allow(db.attempts, db.flights[fp].leader, db.results[db.flights[fp].leader].kind)
    {
      AllowIff(db.attempts, db.flights[fp].leader, db.results[db.flights[fp].leader].kind);
      hide AttemptFault;
    }
    hide Supported, AttemptFault, Repaired;
  }
}
