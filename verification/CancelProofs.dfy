/** Cancelling a consumer keeps the invariant and never meets an inconsistency. */
module CancelProofs {
  import opened Basics
  import opened Tables
  import opened Transactions
  import opened Invariant
  import opened GateProofs
  import opened DeliveryProofs
  import opened FlightProofs
  import opened ResultProofs
  import opened AttemptProofs
  import opened EndProofs

  // ---------------------------------------------------------------- consumers that leave

  lemma LeaveConsumers(requests: Requests, consumers: Consumers, audited: set<Id>, leaving: set<Id>, kind: ResultKind)
    requires ConsumersOk(requests, consumers, audited)
    ensures ConsumersOk(CloseRequests(requests, leaving, kind), Leave(consumers, leaving), audited)
  {
    assert StateOf(kind) != ReqQueued;
  }

  lemma LeaveOwners(consumers: Consumers, results: Results, attempts: Attempts, leaving: set<Id>, result: Result)
    requires OwnersOk(consumers, results) && SuccessOk(results, consumers, attempts) && result.kind != OutSucceeded
    requires forall r :: r in leaving ==> r in consumers && consumers[r].state == Active && r !in results
    ensures OwnersOk(Leave(consumers, leaving), CloseResults(results, leaving, result))
    ensures SuccessOk(CloseResults(results, leaving, result), Leave(consumers, leaving), attempts)
  {
  }

  lemma LeaveLeaders(requests: Requests, consumers: Consumers, leaving: set<Id>, kind: ResultKind)
    requires LeadersQueued(requests, consumers)
    ensures LeadersQueued(CloseRequests(requests, leaving, kind), Leave(consumers, leaving))
  {
  }

  lemma LeaveAttempts(attempts: Attempts, queue: Queue, requests: Requests, g: nat, leaving: set<Id>, kind: ResultKind)
    requires AttemptsOk(attempts, queue, requests, g)
    requires forall r :: r in leaving ==> !HasActiveAttempt(attempts, r)
    ensures AttemptsOk(attempts, queue, CloseRequests(requests, leaving, kind), g)
  {
  }

  // ---------------------------------------------------------------- a follower

  lemma FollowerLeaves(flights: Flights, consumers: Consumers, queue: Queue, requests: Requests, history: History, r: Id)
    requires FlightsOk(flights, consumers) && QueueOk(queue, consumers, requests) && EpisodesOk(history, consumers, flights)
    requires r in consumers && consumers[r].role == Follower
    ensures FlightsOk(flights, Leave(consumers, {r})) && QueueOk(queue, Leave(consumers, {r}), requests)
    ensures EpisodesOk(history, Leave(consumers, {r}), flights)
  {
  }

  lemma CancelFollower(db: Db, r: Id, reason: Id, now: Time)
    requires Inv(db) && r in db.consumers && db.consumers[r].state == Active && db.consumers[r].role == Follower
    ensures Closable(db, r)
    ensures Inv(Close(db, {r}, CancelResult(OutCancelled, now, reason)).(consumers := Leave(db.consumers, {r})))
  {
    hide RequestsOk, ConsumersOk, FlightsOk, QueueOk, OwnersOk, AttemptsOk, OneActive, ReservationsOk, Accounting,
         HoldingsOk, StartsOk, SuccessOk, EpisodesOk, SendersOk, CloseRequests, CloseResults, Leave;
    var result := CancelResult(OutCancelled, now, reason);
    UnclosedResult(db.requests, db.results, r);
    FollowersIdle(db, GenerationOf(db.lease));
    NoActiveAttempt(db.attempts, r);
    CloseKeepsRequests(db.requests, db.results, {r}, result);
    LeaveConsumers(db.requests, db.consumers, db.audited, {r}, OutCancelled);
    FollowerLeaves(db.flights, db.consumers, db.queue, db.requests, db.history, r);
    CloseKeepsQueue(db.queue, Leave(db.consumers, {r}), db.requests, {r}, OutCancelled);
    LeaveOwners(db.consumers, db.results, db.attempts, {r}, result);
    LeaveLeaders(db.requests, db.consumers, {r}, OutCancelled);
    CloseKeepsAttempts(db.attempts, db.queue, db.requests, db.reservations, {r}, OutCancelled, GenerationOf(db.lease));
  }

  // ---------------------------------------------------------------- ending the live attempt of a request

  /** A started attempt becomes unknown and a reserved one fails; its gates are given back. */
  function EndLive(attempts: Attempts, r: Id): Attempts {
    map a | a in attempts ::
      if attempts[a].request != r then attempts[a]
      else if attempts[a].state == Started then attempts[a].(state := AttUnknown)
      else if attempts[a].state == Reserved then attempts[a].(state := AttFailed)
      else attempts[a]
  }

  function Freed(db: Db, r: Id): Db {
    var held := HeldByRequest(db.reservations, r);
    db.(gates := Lowered(db.gates, db.scopes, held),
        reservations := Settle(db.reservations, held, Recovered),
        attempts := EndLive(db.attempts, r))
  }

  lemma EndLiveAttempts(attempts: Attempts, queue: Queue, requests: Requests, g: nat, r: Id)
    requires AttemptsOk(attempts, queue, requests, g) && OneActive(attempts)
    ensures AttemptsOk(EndLive(attempts, r), queue, requests, g) && OneActive(EndLive(attempts, r))
    ensures !HasActiveAttempt(EndLive(attempts, r), r)
    ensures SameElsewhere(attempts, EndLive(attempts, r), r)
  {
  }

  // Settling some reservations while only their attempts change.
  lemma SettleReservations(attempts: Attempts, after: Attempts, reservations: Reservations, scopes: HeldScopes, g: nat,
                           some: set<Id>, state: ReservationState)
    requires ReservationsOk(reservations, scopes, attempts, g) && state != Holding
    requires forall a :: a in attempts ==> a in after && after[a].request == attempts[a].request
    requires forall v :: v in reservations && v !in some && reservations[v].state == Holding ==>
               after[reservations[v].attempt] == attempts[reservations[v].attempt]
    ensures ReservationsOk(Settle(reservations, some, state), scopes, after, g)
  {
    var settled := Settle(reservations, some, state);
    forall v | v in reservations
      ensures settled[v].attempt == reservations[v].attempt && settled[v].request == reservations[v].request
      ensures settled[v].generation == reservations[v].generation
      ensures settled[v].state == Holding ==> v !in some && reservations[v].state == Holding
    {
    }
    assert settled.Keys == reservations.Keys;
    hide Settle;
  }

  lemma EndLiveReservations(attempts: Attempts, reservations: Reservations, scopes: HeldScopes, g: nat, r: Id)
    requires ReservationsOk(reservations, scopes, attempts, g)
    ensures ReservationsOk(Settle(reservations, HeldByRequest(reservations, r), Recovered), scopes, EndLive(attempts, r), g)
  {
    SettleReservations(attempts, EndLive(attempts, r), reservations, scopes, g, HeldByRequest(reservations, r), Recovered);
  }

  lemma EndLiveSenders(history: History, attempts: Attempts, flights: Flights, r: Id)
    requires SendersOk(history, attempts, flights)
    ensures SendersOk(history, EndLive(attempts, r), flights)
  {
  }

  lemma EndLiveHoldings(attempts: Attempts, reservations: Reservations, scopes: HeldScopes, g: nat, requests: Requests,
                        after: Requests, r: Id)
    requires HoldingsOk(attempts, reservations, requests) && ReservationsOk(reservations, scopes, attempts, g)
    requires forall s :: Queued(after, s) ==> Queued(requests, s) && s != r
    ensures HoldingsOk(EndLive(attempts, r), Settle(reservations, HeldByRequest(reservations, r), Recovered), after)
  {
    hide HasHoldingReservation, HasReleasedReservation, Settle;
    forall a | a in attempts && attempts[a].request != r {
      SettledOthers(reservations, HeldByRequest(reservations, r), Recovered, a);
    }
  }

  lemma HeldSubset(reservations: Reservations, scopes: HeldScopes, attempts: Attempts, g: nat, r: Id)
    requires ReservationsOk(reservations, scopes, attempts, g)
    ensures HeldByRequest(reservations, r) <= HeldBy(reservations)
    ensures forall v :: v in HeldByRequest(reservations, r) ==> v in scopes && scopes[v].Keys == ALL_SCOPES
    ensures !HasActiveAttempt(attempts, r) ==> HeldByRequest(reservations, r) == {}
  {
  }

  // Everything that does not depend on whether the request stays open.
  lemma FreedParts(db: Db, r: Id)
    requires Inv(db) && Queued(db.requests, r)
    ensures Releasable(db.gates, db.scopes, HeldByRequest(db.reservations, r))
    ensures var freed := Freed(db, r);
            && AttemptsOk(freed.attempts, db.queue, db.requests, GenerationOf(db.lease)) && OneActive(freed.attempts)
            && ReservationsOk(freed.reservations, db.scopes, freed.attempts, GenerationOf(db.lease))
            && Accounting(freed.gates, freed.reservations, db.scopes)
            && StartsOk(freed.gates, db.starts)
            && SuccessOk(db.results, db.consumers, freed.attempts)
            && SendersOk(db.history, freed.attempts, db.flights)
            && !HasActiveAttempt(freed.attempts, r)
            && SameElsewhere(db.attempts, freed.attempts, r)
  {
    hide RequestsOk, ConsumersOk, FlightsOk, QueueOk, OwnersOk, AttemptsOk, OneActive, ReservationsOk, Accounting,
         HoldingsOk, StartsOk, SuccessOk, EpisodesOk, SendersOk, LeadersQueued, EndLive, Settle, Lowered, HasActiveAttempt, SameElsewhere;
    var g, held := GenerationOf(db.lease), HeldByRequest(db.reservations, r);
    HeldSubset(db.reservations, db.scopes, db.attempts, g, r);
    HeldIsReleasable(db.gates, db.reservations, db.scopes, held);
    ReleaseKeepsAccounting(db.gates, db.reservations, db.scopes, held, Recovered);
    LoweredStarts(db.gates, db.starts, db.scopes, held);
    EndLiveAttempts(db.attempts, db.queue, db.requests, g, r);
    EndLiveReservations(db.attempts, db.reservations, db.scopes, g, r);
    EndLiveSenders(db.history, db.attempts, db.flights, r);
    SuccessElsewhere(db.results, db.consumers, db.requests, db.attempts, EndLive(db.attempts, r), r);
  }

  // ---------------------------------------------------------------- a leader that may have been sent

  function WaitingSet(consumers: Consumers, fp: Id): set<Id> {
    set r | r in consumers && Waiting(consumers, fp, r)
  }

  lemma FlightLeaves(flights: Flights, consumers: Consumers, history: History, fp: Id)
    requires FlightsOk(flights, consumers) && EpisodesOk(history, consumers, flights) && fp in flights
    ensures FlightsOk(flights[fp := flights[fp].(active := false)], Leave(consumers, WaitingSet(consumers, fp)))
    ensures EpisodesOk(history, Leave(consumers, WaitingSet(consumers, fp)), flights[fp := flights[fp].(active := false)])
  {
  }

  lemma FlightLeavesQueue(flights: Flights, consumers: Consumers, queue: Queue, requests: Requests, fp: Id)
    requires FlightsOk(flights, consumers) && QueueOk(queue, consumers, requests)
    requires fp in flights && flights[fp].active && flights[fp].leader in queue && queue[flights[fp].leader].state != InQueue
    ensures QueueOk(queue, Leave(consumers, WaitingSet(consumers, fp)), requests)
  {
  }

  lemma FlightEnds(history: History, attempts: Attempts, flights: Flights, fp: Id)
    requires SendersOk(history, attempts, flights) && fp in flights
    ensures SendersOk(history, attempts, flights[fp := flights[fp].(active := false)])
  {
  }

  ghost function SentCancelled(db: Db, r: Id, fp: Id, reason: Id, now: Time): Db
    requires fp in db.flights
  {
    Close(Freed(db, r), WaitingSet(db.consumers, fp), CancelResult(OutUnknown, now, reason)).(
      consumers := Leave(db.consumers, WaitingSet(db.consumers, fp)),
      flights := db.flights[fp := db.flights[fp].(active := false)])
  }

  lemma WaitingClosable(db: Db, fp: Id)
    requires RequestsOk(db.requests, db.results) && LeadersQueued(db.requests, db.consumers)
    ensures forall s :: s in WaitingSet(db.consumers, fp) ==> Closable(db, s)
  {
  }

  lemma OnlyLeaderActive(db: Db, g: nat, after: Attempts, r: Id, fp: Id)
    requires QueueOk(db.queue, db.consumers, db.requests) && AttemptsOk(db.attempts, db.queue, db.requests, g)
    requires FlightsOk(db.flights, db.consumers) && fp in db.flights && db.flights[fp].leader == r
    requires SameElsewhere(db.attempts, after, r) && !HasActiveAttempt(after, r)
    ensures forall s :: s in WaitingSet(db.consumers, fp) ==> !HasActiveAttempt(after, s)
  {
  }

  lemma ClosedQueued(requests: Requests, closed: set<Id>, kind: ResultKind)
    ensures forall s :: Queued(CloseRequests(requests, closed, kind), s) ==> Queued(requests, s) && s !in closed
  {
    assert StateOf(kind) != ReqQueued;
  }

  lemma SentKeepsInv(db: Db, r: Id, fp: Id, reason: Id, now: Time)
    requires Inv(db) && fp in db.flights && db.flights[fp] == Flight(r, true)
    requires r in db.consumers && db.consumers[r].fingerprint == fp && db.consumers[r].state == Active
    requires r in db.queue && db.queue[r].state != InQueue
    ensures Inv(SentCancelled(db, r, fp, reason, now))
  {
    hide RequestsOk, ConsumersOk, FlightsOk, QueueOk, OwnersOk, AttemptsOk, OneActive, ReservationsOk, Accounting,
         HoldingsOk, StartsOk, SuccessOk, EpisodesOk, SendersOk, EndLive, Settle, Lowered, CloseRequests, CloseResults, Leave,
         HasActiveAttempt, SameElsewhere;
    var g, leaving, result := GenerationOf(db.lease), WaitingSet(db.consumers, fp), CancelResult(OutUnknown, now, reason);
    var attempts := EndLive(db.attempts, r);
    var consumers := Leave(db.consumers, leaving);
    FreedParts(db, r);
    WaitingClosable(db, fp);
    OnlyLeaderActive(db, g, attempts, r, fp);
    CloseKeepsRequests(db.requests, db.results, leaving, result);
    LeaveConsumers(db.requests, db.consumers, db.audited, leaving, OutUnknown);
    FlightLeaves(db.flights, db.consumers, db.history, fp);
    FlightLeavesQueue(db.flights, db.consumers, db.queue, db.requests, fp);
    CloseKeepsQueue(db.queue, consumers, db.requests, leaving, OutUnknown);
    LeaveOwners(db.consumers, db.results, attempts, leaving, result);
    LeaveLeaders(db.requests, db.consumers, leaving, OutUnknown);
    LeaveAttempts(attempts, db.queue, db.requests, g, leaving, OutUnknown);
    ClosedQueued(db.requests, leaving, OutUnknown);
    assert r in leaving;
    EndLiveHoldings(db.attempts, db.reservations, db.scopes, g, db.requests, CloseRequests(db.requests, leaving, OutUnknown), r);
    FlightEnds(db.history, attempts, db.flights, fp);
  }

  // ---------------------------------------------------------------- a leader that was never sent

  predicate HasStartedAttempt(attempts: Attempts, r: Id) {
    exists a :: a in attempts && attempts[a].request == r && attempts[a].state == Started
  }

  predicate MayHaveBeenSent(attempts: Attempts, r: Id) {
    HasSentAttempt(attempts, r) || HasStartedAttempt(attempts, r)
  }

  // A flight is handed on only if nothing of it was ever started.
  lemma UnsentNotStarted(history: History, attempts: Attempts, flights: Flights, r: Id)
    requires SendersOk(history, attempts, flights) && !MayHaveBeenSent(attempts, r)
    ensures forall a :: a in history.started ==> attempts[a].request != r
  {
  }

  lemma NextFollower(consumers: Consumers, fp: Id)
    ensures NextLeader(consumers, fp).Some? ==>
              Waiting(consumers, fp, NextLeader(consumers, fp).value) && consumers[NextLeader(consumers, fp).value].role == Follower
    ensures NextLeader(consumers, fp).None? ==>
              forall s :: Waiting(consumers, fp, s) ==> consumers[s].role == Leader
  {
    var followers := set s | s in consumers && Waiting(consumers, fp, s) && consumers[s].role == Follower;
    assert forall s :: Waiting(consumers, fp, s) && consumers[s].role == Follower ==> s in followers;
  }

  lemma LastLeaves(flights: Flights, consumers: Consumers, history: History, r: Id, fp: Id)
    requires FlightsOk(flights, consumers) && EpisodesOk(history, consumers, flights)
    requires fp in flights && flights[fp] == Flight(r, true)
    requires forall s :: Waiting(consumers, fp, s) ==> consumers[s].role == Leader
    ensures FlightsOk(flights[fp := flights[fp].(active := false)], Leave(consumers, {r}))
    ensures EpisodesOk(history, Leave(consumers, {r}), flights[fp := flights[fp].(active := false)])
  {
  }

  lemma LeaderLeavesQueue(queue: Queue, consumers: Consumers, requests: Requests, r: Id)
    requires QueueOk(queue, consumers, requests) && r in queue && r in consumers
    ensures QueueOk(queue[r := queue[r].(state := Withdrawn)], Leave(consumers, {r}), requests)
  {
  }

  lemma WithdrawnAttempts(attempts: Attempts, queue: Queue, requests: Requests, g: nat, r: Id)
    requires AttemptsOk(attempts, queue, requests, g) && !HasActiveAttempt(attempts, r) && r in queue
    ensures AttemptsOk(attempts, queue[r := queue[r].(state := Withdrawn)], requests, g)
  {
  }

  // Promotion of `next` once the leader `r` has left.
  lemma FlightHandedOn(flights: Flights, consumers: Consumers, history: History, r: Id, fp: Id, next: Id)
    requires FlightsOk(flights, consumers) && EpisodesOk(history, consumers, flights)
    requires fp in flights && flights[fp] == Flight(r, true)
    requires Waiting(consumers, fp, next) && consumers[next].role == Follower
    ensures r != next
    ensures var left := Leave(consumers, {r});
            && next in left
            && FlightsOk(flights[fp := flights[fp].(leader := next)], left[next := left[next].(role := Leader)])
            && EpisodesOk(history, left[next := left[next].(role := Leader)], flights[fp := flights[fp].(leader := next)])
  {
    hide FlightsOk, EpisodesOk;
    FlightsHandedOn(flights, consumers, r, fp, next);
    EpisodesHandedOn(flights, consumers, history, r, fp, next);
  }

  lemma FlightsHandedOn(flights: Flights, consumers: Consumers, r: Id, fp: Id, next: Id)
    requires FlightsOk(flights, consumers) && fp in flights && flights[fp] == Flight(r, true)
    requires Waiting(consumers, fp, next) && consumers[next].role == Follower
    ensures var left := Leave(consumers, {r});
            && r != next && next in left
            && FlightsOk(flights[fp := flights[fp].(leader := next)], left[next := left[next].(role := Leader)])
  {
  }

  lemma EpisodesHandedOn(flights: Flights, consumers: Consumers, history: History, r: Id, fp: Id, next: Id)
    requires FlightsOk(flights, consumers) && EpisodesOk(history, consumers, flights)
    requires fp in flights && flights[fp] == Flight(r, true)
    requires Waiting(consumers, fp, next) && consumers[next].role == Follower
    ensures var left := Leave(consumers, {r});
            && next in left
            && EpisodesOk(history, left[next := left[next].(role := Leader)], flights[fp := flights[fp].(leader := next)])
  {
  }

  lemma PromotedQueue(queue: Queue, left: Consumers, requests: Requests, next: Id, now: Time)
    requires QueueOk(queue, left, requests) && next in left && next in requests && next !in queue
    requires left[next].state == Active
    ensures QueueOk(queue[next := Entry(left[next].domain, requests[next].task, now, InQueue)],
                    left[next := left[next].(role := Leader)], requests)
  {
  }

  lemma PromotedSenders(history: History, attempts: Attempts, consumers: Consumers, flights: Flights, r: Id, fp: Id, next: Id)
    requires SendersOk(history, attempts, flights) && EpisodesOk(history, consumers, flights) && FlightsOk(flights, consumers)
    requires fp in flights && flights[fp] == Flight(r, true) && Waiting(consumers, fp, next)
    requires forall a :: a in history.started ==> attempts[a].request != r
    ensures SendersOk(history, attempts, flights[fp := flights[fp].(leader := next)])
  {
    assert history.episode[next] == history.episode[r];
  }

  lemma PromotedConsumers(requests: Requests, results: Results, consumers: Consumers, audited: set<Id>, attempts: Attempts, next: Id)
    requires ConsumersOk(requests, consumers, audited) && LeadersQueued(requests, consumers)
    requires OwnersOk(consumers, results) && SuccessOk(results, consumers, attempts)
    requires next in consumers && consumers[next].state == Active
    ensures ConsumersOk(requests, consumers[next := consumers[next].(role := Leader)], audited)
    ensures LeadersQueued(requests, consumers[next := consumers[next].(role := Leader)])
    ensures OwnersOk(consumers[next := consumers[next].(role := Leader)], results)
    ensures SuccessOk(results, consumers[next := consumers[next].(role := Leader)], attempts)
  {
  }

  ghost function Replaced(db: Db, r: Id, fp: Id, next: Option<Id>, reason: Id, now: Time): Db
    requires fp in db.flights && r in db.queue && (next.Some? ==> next.value in db.consumers && next.value in db.requests)
  {
    var closed := Close(Freed(db, r), {r}, CancelResult(OutCancelled, now, reason));
    var left := Leave(db.consumers, {r});
    var withdrawn := db.queue[r := db.queue[r].(state := Withdrawn)];
    match next
    case None => closed.(consumers := left, queue := withdrawn, flights := db.flights[fp := db.flights[fp].(active := false)])
    case Some(n) => closed.(
      consumers := left[n := left[n].(role := Leader)],
      queue := withdrawn[n := Entry(left[n].domain, db.requests[n].task, now, InQueue)],
      flights := db.flights[fp := db.flights[fp].(leader := n)])
  }

  // The parts that hold after the leader has left, whoever follows.
  lemma ReplaceParts(db: Db, r: Id, fp: Id, reason: Id, now: Time)
    requires Inv(db) && fp in db.flights && db.flights[fp] == Flight(r, true)
    requires r in db.consumers && db.consumers[r].fingerprint == fp && db.consumers[r].state == Active && r in db.queue
    ensures var closed := Close(Freed(db, r), {r}, CancelResult(OutCancelled, now, reason));
            var left := Leave(db.consumers, {r});
            var withdrawn := db.queue[r := db.queue[r].(state := Withdrawn)];
            && RequestsOk(closed.requests, closed.results)
            && ConsumersOk(closed.requests, left, db.audited)
            && QueueOk(withdrawn, left, closed.requests)
            && OwnersOk(left, closed.results) && SuccessOk(closed.results, left, closed.attempts)
            && LeadersQueued(closed.requests, left)
            && AttemptsOk(closed.attempts, withdrawn, closed.requests, GenerationOf(db.lease))
            && OneActive(closed.attempts)
            && ReservationsOk(closed.reservations, db.scopes, closed.attempts, GenerationOf(db.lease))
            && Accounting(closed.gates, closed.reservations, db.scopes)
            && StartsOk(closed.gates, db.starts)
            && HoldingsOk(closed.attempts, closed.reservations, closed.requests)
            && SendersOk(db.history, closed.attempts, db.flights)
            && SameElsewhere(db.attempts, closed.attempts, r)
  {
    hide RequestsOk, ConsumersOk, FlightsOk, QueueOk, OwnersOk, AttemptsOk, OneActive, ReservationsOk, Accounting,
         HoldingsOk, StartsOk, SuccessOk, EpisodesOk, SendersOk, EndLive, Settle, Lowered, CloseRequests, CloseResults, Leave,
         HasActiveAttempt, SameElsewhere;
    var g, result := GenerationOf(db.lease), CancelResult(OutCancelled, now, reason);
    var withdrawn := db.queue[r := db.queue[r].(state := Withdrawn)];
    var attempts := EndLive(db.attempts, r);
    FreedParts(db, r);
    UnclosedResult(db.requests, db.results, r);
    CloseKeepsRequests(db.requests, db.results, {r}, result);
    LeaveConsumers(db.requests, db.consumers, db.audited, {r}, OutCancelled);
    LeaderLeavesQueue(db.queue, db.consumers, db.requests, r);
    CloseKeepsQueue(withdrawn, Leave(db.consumers, {r}), db.requests, {r}, OutCancelled);
    LeaveOwners(db.consumers, db.results, attempts, {r}, result);
    LeaveLeaders(db.requests, db.consumers, {r}, OutCancelled);
    WithdrawnAttempts(attempts, db.queue, db.requests, g, r);
    LeaveAttempts(attempts, withdrawn, db.requests, g, {r}, OutCancelled);
    ClosedQueued(db.requests, {r}, OutCancelled);
    EndLiveHoldings(db.attempts, db.reservations, db.scopes, g, db.requests, CloseRequests(db.requests, {r}, OutCancelled), r);
  }

  lemma LastKeepsInv(db: Db, r: Id, fp: Id, reason: Id, now: Time)
    requires Inv(db) && fp in db.flights && db.flights[fp] == Flight(r, true)
    requires r in db.consumers && db.consumers[r].fingerprint == fp && db.consumers[r].state == Active && r in db.queue
    requires NextLeader(db.consumers, fp).None?
    ensures Inv(Replaced(db, r, fp, None, reason, now))
  {
    hide RequestsOk, ConsumersOk, FlightsOk, QueueOk, OwnersOk, AttemptsOk, OneActive, ReservationsOk, Accounting,
         HoldingsOk, StartsOk, SuccessOk, EpisodesOk, SendersOk, EndLive, Settle, Lowered, CloseRequests, CloseResults, Leave,
         SameElsewhere, NextLeader, LeadersQueued, Waiting;
    ReplaceParts(db, r, fp, reason, now);
    NextFollower(db.consumers, fp);
    LastLeaves(db.flights, db.consumers, db.history, r, fp);
    FlightEnds(db.history, EndLive(db.attempts, r), db.flights, fp);
  }

  lemma FollowerUnqueued(queue: Queue, consumers: Consumers, requests: Requests, next: Id)
    requires QueueOk(queue, consumers, requests) && next in consumers && consumers[next].role == Follower
    ensures next !in queue
  {
  }

  lemma LeaveOther(consumers: Consumers, r: Id, s: Id)
    requires s in consumers && s != r
    ensures s in Leave(consumers, {r}) && Leave(consumers, {r})[s] == consumers[s]
  {
  }

  lemma ClosedTask(requests: Requests, r: Id, next: Id, kind: ResultKind)
    requires next in requests
    ensures next in CloseRequests(requests, {r}, kind) && CloseRequests(requests, {r}, kind)[next].task == requests[next].task
  {
  }

  lemma HandedOnKeepsInv(db: Db, r: Id, fp: Id, next: Id, reason: Id, now: Time)
    requires Inv(db) && fp in db.flights && db.flights[fp] == Flight(r, true)
    requires r in db.consumers && db.consumers[r].fingerprint == fp && db.consumers[r].state == Active && r in db.queue
    requires Waiting(db.consumers, fp, next) && db.consumers[next].role == Follower
    requires !MayHaveBeenSent(db.attempts, r)
    ensures next in db.requests && next !in db.queue && r != next
    ensures Inv(Replaced(db, r, fp, Some(next), reason, now))
  {
    hide RequestsOk, ConsumersOk, FlightsOk, QueueOk, OwnersOk, AttemptsOk, OneActive, ReservationsOk, Accounting,
         HoldingsOk, StartsOk, SuccessOk, EpisodesOk, SendersOk, EndLive, Settle, Lowered, CloseRequests, CloseResults, Leave,
         SameElsewhere, LeadersQueued, MayHaveBeenSent;
    var g, attempts := GenerationOf(db.lease), EndLive(db.attempts, r);
    var left, requests := Leave(db.consumers, {r}), CloseRequests(db.requests, {r}, OutCancelled);
    var results := CloseResults(db.results, {r}, CancelResult(OutCancelled, now, reason));
    var withdrawn := db.queue[r := db.queue[r].(state := Withdrawn)];
    ReplaceParts(db, r, fp, reason, now);
    SameKeys(db.requests, db.consumers, db.audited);
    FollowerUnqueued(db.queue, db.consumers, db.requests, next);
    FlightHandedOn(db.flights, db.consumers, db.history, r, fp, next);
    LeaveOther(db.consumers, r, next);
    ClosedTask(db.requests, r, next, OutCancelled);
    PromotedConsumers(requests, results, left, db.audited, attempts, next);
    PromotedQueue(withdrawn, left, requests, next, now);
    UnsentNotStarted(db.history, db.attempts, db.flights, r);
    PromotedSenders(db.history, db.attempts, db.consumers, db.flights, r, fp, next);
    EndLiveSenders(db.history, db.attempts, db.flights[fp := db.flights[fp].(leader := next)], r);
    FollowersIdle(db, g);
    NextIdle(db.attempts, attempts, r, next);
    AttemptsElsewhere(attempts, withdrawn, requests, g, next, Entry(left[next].domain, requests[next].task, now, InQueue));
  }

  lemma NextIdle(before: Attempts, after: Attempts, r: Id, next: Id)
    requires SameElsewhere(before, after, r) && next != r && AttemptsOf(before, next) == {}
    ensures AttemptsOf(after, next) == {}
  {
    forall a | a in after
      ensures after[a].request != next
    {
      assert after[a].request == next ==> a in AttemptsOf(before, next);
    }
  }

  // ---------------------------------------------------------------- the cancellation of a leader, branch by branch

  lemma NothingLowered(gates: Gates, scopes: HeldScopes, reservations: Reservations)
    ensures Lowered(gates, scopes, {}) == gates
    ensures forall state :: Settle(reservations, {}, state) == reservations
  {
    forall k | k in gates
      ensures |Holders({}, scopes, k)| == 0
    {
      assert Holders({}, scopes, k) == {};
    }
  }

  lemma SettledAway(reservations: Reservations, r: Id)
    ensures HeldByRequest(Settle(reservations, HeldByRequest(reservations, r), Recovered), r) == {}
  {
  }

  // With no live attempt there is nothing to free.
  lemma NothingFreed(db: Db, g: nat, r: Id)
    requires ReservationsOk(db.reservations, db.scopes, db.attempts, g) && !HasActiveAttempt(db.attempts, r)
    ensures HeldByRequest(db.reservations, r) == {}
    ensures Freed(db, r) == db
  {
    HeldSubset(db.reservations, db.scopes, db.attempts, g, r);
    NothingLowered(db.gates, db.scopes, db.reservations);
    NothingEndedLive(db.attempts, r);
  }

  lemma NothingEndedLive(attempts: Attempts, r: Id)
    requires !HasActiveAttempt(attempts, r)
    ensures EndLive(attempts, r) == attempts
  {
  }

  lemma FirstActiveIs(attempts: Attempts, r: Id)
    requires OneActive(attempts)
    ensures FirstActive(attempts, r).None? <==> !HasActiveAttempt(attempts, r)
    ensures FirstActive(attempts, r).Some? ==>
              var a := FirstActive(attempts, r).value;
              && a in attempts && attempts[a].request == r && IsActive(attempts[a].state)
              && (forall b :: b in attempts && attempts[b].request == r && IsActive(attempts[b].state) ==> b == a)
              && (HasStartedAttempt(attempts, r) <==> attempts[a].state == Started)
  {
    if HasActiveAttempt(attempts, r) {
      var a :| a in attempts && attempts[a].request == r && IsActive(attempts[a].state);
      assert a in ActiveAttempts(attempts, r);
    }
  }

  lemma EndsReserved(attempts: Attempts, r: Id, a: Id)
    requires a in attempts && attempts[a].request == r && attempts[a].state == Reserved
    requires forall b :: b in attempts && attempts[b].request == r && IsActive(attempts[b].state) ==> b == a
    ensures WithState(attempts, {a}, AttFailed) == EndLive(attempts, r)
  {
  }

  lemma EndsStarted(attempts: Attempts, r: Id, a: Id)
    requires a in attempts && attempts[a].request == r && attempts[a].state == Started
    requires forall b :: b in attempts && attempts[b].request == r && IsActive(attempts[b].state) ==> b == a
    ensures WithState(attempts, (set x | x in attempts && attempts[x].request == r && attempts[x].state == Started), AttUnknown)
            == EndLive(attempts, r)
  {
  }

  // The leader's flight may have been sent: everyone waiting is told that the outcome is unknown.
  lemma SentBranch(db: Db, r: Id, fp: Id, reason: Id, now: Time)
    requires Inv(db) && fp in db.flights && db.flights[fp] == Flight(r, true)
    requires Queued(db.requests, r)
    requires HasStartedAttempt(db.attempts, r)
    ensures CancelStartedFlight(db, fp, reason, now) == Commit(SentCancelled(db, r, fp, reason, now), ())
  {
    hide RequestsOk, ConsumersOk, FlightsOk, QueueOk, OwnersOk, AttemptsOk, OneActive, ReservationsOk, Accounting,
         HoldingsOk, StartsOk, SuccessOk, EpisodesOk, SendersOk, LeadersQueued, EndLive, Settle, Lowered, CloseRequests, CloseResults,
         Leave, SameElsewhere, Releasable, WithState, Closable, Waiting;
    FreedParts(db, r);
    WaitingClosable(db, fp);
    FirstActiveIs(db.attempts, r);
    EndsStarted(db.attempts, r, FirstActive(db.attempts, r).value);
    assert WaitingSet(db.consumers, fp) == set s | s in db.consumers && Waiting(db.consumers, fp, s);
  }

  // With nothing held and nothing started, the flight just ends.
  lemma IdleFlightCancelled(db: Db, r: Id, fp: Id, reason: Id, now: Time)
    requires fp in db.flights && db.flights[fp] == Flight(r, true)
    requires HeldByRequest(db.reservations, r) == {} && !HasActiveAttempt(db.attempts, r)
    requires forall s :: s in WaitingSet(db.consumers, fp) ==> Closable(db, s)
    ensures CancelStartedFlight(db, fp, reason, now)
            == Commit(Close(db, WaitingSet(db.consumers, fp), CancelResult(OutUnknown, now, reason)).(
                        consumers := Leave(db.consumers, WaitingSet(db.consumers, fp)),
                        flights := db.flights[fp := db.flights[fp].(active := false)]), ())
  {
    hide Settle, Lowered, CloseRequests, CloseResults, Leave, WithState, HasActiveAttempt;
    NothingLowered(db.gates, db.scopes, db.reservations);
    NothingStarted(db.attempts, r);
    assert WaitingSet(db.consumers, fp) == set s | s in db.consumers && Waiting(db.consumers, fp, s);
  }

  lemma NothingStarted(attempts: Attempts, r: Id)
    requires !HasActiveAttempt(attempts, r)
    ensures WithState(attempts, (set x | x in attempts && attempts[x].request == r && attempts[x].state == Started), AttUnknown)
            == attempts
  {
  }

  // Sent earlier, and whatever was reserved since has been given back.
  lemma SentBeforeBranch(db: Db, r: Id, fp: Id, reason: Id, now: Time)
    requires Inv(db) && fp in db.flights && db.flights[fp] == Flight(r, true)
    requires Queued(db.requests, r)
    ensures CancelStartedFlight(Freed(db, r), fp, reason, now) == Commit(SentCancelled(db, r, fp, reason, now), ())
  {
    hide RequestsOk, ConsumersOk, FlightsOk, QueueOk, OwnersOk, AttemptsOk, OneActive, ReservationsOk, Accounting,
         HoldingsOk, StartsOk, SuccessOk, EpisodesOk, SendersOk, LeadersQueued, EndLive, Settle, Lowered, CloseRequests, CloseResults,
         Leave, SameElsewhere, HasActiveAttempt, HeldByRequest, CancelStartedFlight, WaitingSet;
    FreedParts(db, r);
    SettledAway(db.reservations, r);
    WaitingClosable(db, fp);
    IdleFlightCancelled(Freed(db, r), r, fp, reason, now);
  }

  lemma ReplaceBranch(db: Db, r: Id, fp: Id, reason: Id, now: Time)
    requires Inv(db) && fp in db.flights && db.flights[fp] == Flight(r, true)
    requires r in db.consumers && db.consumers[r].fingerprint == fp && db.consumers[r].state == Active && r in db.queue
    requires !MayHaveBeenSent(db.attempts, r)
    ensures var tx := ReplaceLeader(Freed(db, r), r, reason, now);
            && tx.Commit? && tx.value == NextLeader(db.consumers, fp) && Inv(tx.db)
  {
    hide RequestsOk, ConsumersOk, FlightsOk, QueueOk, OwnersOk, AttemptsOk, OneActive, ReservationsOk, Accounting,
         HoldingsOk, StartsOk, SuccessOk, EpisodesOk, SendersOk, EndLive, Settle, Lowered, CloseRequests, CloseResults,
         NextLeader, MayHaveBeenSent;
    UnclosedResult(db.requests, db.results, r);
    NextFollower(db.consumers, fp);
    if NextLeader(db.consumers, fp).None? {
      LastKeepsInv(db, r, fp, reason, now);
    } else {
      HandedOnKeepsInv(db, r, fp, NextLeader(db.consumers, fp).value, reason, now);
    }
  }

  lemma LeaderEntry(queue: Queue, consumers: Consumers, requests: Requests, r: Id)
    requires QueueOk(queue, consumers, requests) && r in consumers && consumers[r].role == Leader && consumers[r].state == Active
    ensures r in queue && (queue[r].state == InQueue || queue[r].state == Dequeued)
  {
  }

  lemma SentEntry(attempts: Attempts, queue: Queue, requests: Requests, g: nat, r: Id)
    requires AttemptsOk(attempts, queue, requests, g) && MayHaveBeenSent(attempts, r)
    ensures r in queue && queue[r].state != InQueue
  {
  }

  // Which of the two a leader's cancellation comes to depends only on whether it may have been sent.
  lemma CancelLeaderBranches(db: Db, r: Id, reason: Id, now: Time)
    requires Inv(db) && r in db.consumers && db.consumers[r].role == Leader && db.consumers[r].state == Active
    ensures db.consumers[r].fingerprint in db.flights
    ensures CancelLeader(db, r, reason, now)
            == if MayHaveBeenSent(db.attempts, r)
               then Commit(SentCancelled(db, r, db.consumers[r].fingerprint, reason, now), None)
               else ReplaceLeader(Freed(db, r), r, reason, now)
  {
    hide RequestsOk, ConsumersOk, FlightsOk, QueueOk, OwnersOk, AttemptsOk, OneActive, ReservationsOk, Accounting,
         HoldingsOk, StartsOk, SuccessOk, EpisodesOk, SendersOk, EndLive, Settle, Lowered, Releasable, FirstActive, SentCancelled,
         CancelStartedFlight, ReplaceLeader, WithState, HasActiveAttempt, HasSentAttempt, HasStartedAttempt;
    var g, fp := GenerationOf(db.lease), db.consumers[r].fingerprint;
    FlightOf(db.flights, db.consumers, r);
    LeaderEntry(db.queue, db.consumers, db.requests, r);
    FirstActiveIs(db.attempts, r);
    FreedParts(db, r);
    var active := FirstActive(db.attempts, r);
    if HasStartedAttempt(db.attempts, r) {
      StartedIsActive(db.attempts, r);
      SentBranch(db, r, fp, reason, now);
    } else {
      if active.Some? {
        EndsReserved(db.attempts, r, active.value);
      } else {
        NothingFreed(db, g, r);
      }
      SentBeforeBranch(db, r, fp, reason, now);
    }
  }

  lemma StartedIsActive(attempts: Attempts, r: Id)
    requires HasStartedAttempt(attempts, r)
    ensures HasActiveAttempt(attempts, r)
  {
  }

  /** Under a valid fence, cancelling succeeds exactly for an active consumer: none of its consistency
      branches is reachable. A leader is replaced only if nothing of its flight may have been sent. */
  lemma CancelTotal(db: Db, r: Id, reason: Id, token: Token, now: Time)
    requires Inv(db) && Fence(db.lease, token, now).None?
    ensures var tx := Cancel(db, r, reason, token, now);
            && (tx.Commit? <==> r in db.consumers && db.consumers[r].state == Active)
            && (tx.Abort? ==> tx.fault == ConsumerNotActive)
            && (tx.Commit? ==> Inv(tx.db))
            && (tx.Commit? && tx.value.Some? ==>
                  !MayHaveBeenSent(db.attempts, r) && tx.value == NextLeader(db.consumers, db.consumers[r].fingerprint))
  {
    hide RequestsOk, ConsumersOk, FlightsOk, QueueOk, OwnersOk, AttemptsOk, OneActive, ReservationsOk, Accounting,
         HoldingsOk, StartsOk, SuccessOk, EpisodesOk, SendersOk, SentCancelled, MayHaveBeenSent,
         CancelLeader, ReplaceLeader, Freed, Fence, NextLeader, Close, Leave;
    if r in db.consumers && db.consumers[r].state == Active {
      if db.consumers[r].role == Follower {
        CancelFollower(db, r, reason, now);
      } else {
        var fp := db.consumers[r].fingerprint;
        CancelLeaderBranches(db, r, reason, now);
        FlightOf(db.flights, db.consumers, r);
        LeaderEntry(db.queue, db.consumers, db.requests, r);
        if MayHaveBeenSent(db.attempts, r) {
          SentEntry(db.attempts, db.queue, db.requests, GenerationOf(db.lease), r);
          SentKeepsInv(db, r, fp, reason, now);
        } else {
          ReplaceBranch(db, r, fp, reason, now);
        }
      }
    }
  }
}
