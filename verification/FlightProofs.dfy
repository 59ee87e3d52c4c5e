/** Admission, claiming and finalisation keep the invariant. */
module FlightProofs {
  import opened Basics
  import opened Tables
  import opened Transactions
  import opened Invariant
  import opened DeliveryProofs

  // ---------------------------------------------------------------- closing requests

  lemma CloseKeepsRequests(requests: Requests, results: Results, closed: set<Id>, result: Result)
    requires RequestsOk(requests, results)
    requires forall r :: r in closed ==> Queued(requests, r)
    ensures RequestsOk(CloseRequests(requests, closed, result.kind), CloseResults(results, closed, result))
  {
  }

  lemma CloseKeepsOwners(consumers: Consumers, results: Results, closed: set<Id>, result: Result)
    requires OwnersOk(consumers, results)
    ensures OwnersOk(consumers, CloseResults(results, closed, result))
  {
  }

  lemma CloseKeepsQueue(queue: Queue, consumers: Consumers, requests: Requests, closed: set<Id>, kind: ResultKind)
    requires QueueOk(queue, consumers, requests)
    ensures QueueOk(queue, consumers, CloseRequests(requests, closed, kind))
  {
  }

  // Closing a request without a live attempt disturbs no attempt.
  lemma CloseKeepsAttempts(attempts: Attempts, queue: Queue, requests: Requests, reservations: Reservations,
                           closed: set<Id>, kind: ResultKind, g: nat)
    requires AttemptsOk(attempts, queue, requests, g) && HoldingsOk(attempts, reservations, requests)
    requires forall r :: r in closed ==> !HasActiveAttempt(attempts, r)
    ensures AttemptsOk(attempts, queue, CloseRequests(requests, closed, kind), g)
    ensures HoldingsOk(attempts, reservations, CloseRequests(requests, closed, kind))
  {
  }

  // ---------------------------------------------------------------- admission

  lemma NewRequest(requests: Requests, results: Results, r: Id, request: Request)
    requires RequestsOk(requests, results) && r !in requests && request.state == ReqQueued
    ensures RequestsOk(requests[r := request], results)
  {
  }

  lemma NewRequestAttempts(attempts: Attempts, queue: Queue, requests: Requests, reservations: Reservations, g: nat,
                           r: Id, request: Request)
    requires AttemptsOk(attempts, queue, requests, g) && HoldingsOk(attempts, reservations, requests)
    requires r !in requests
    ensures AttemptsOk(attempts, queue, requests[r := request], g)
    ensures HoldingsOk(attempts, reservations, requests[r := request])
    ensures AttemptsOf(attempts, r) == {}
  {
  }

  lemma NewConsumer(requests: Requests, consumers: Consumers, audited: set<Id>, r: Id, request: Request, row: ConsumerRow)
    requires ConsumersOk(requests, consumers, audited) && r !in requests
    requires request.state == ReqQueued && row.state == Active && row.fingerprint == request.fingerprint
    ensures ConsumersOk(requests[r := request], consumers[r := row], audited + {r})
  {
  }

  lemma FollowerJoins(flights: Flights, consumers: Consumers, r: Id, row: ConsumerRow)
    requires FlightsOk(flights, consumers) && r !in consumers
    requires row.fingerprint in flights && flights[row.fingerprint].active
    requires row.role == Follower && row.state == Active
    requires consumers[flights[row.fingerprint].leader].domain == row.domain
    ensures FlightsOk(flights, consumers[r := row])
  {
  }

  lemma FollowerQueue(queue: Queue, consumers: Consumers, requests: Requests, r: Id, row: ConsumerRow, request: Request)
    requires QueueOk(queue, consumers, requests) && r !in consumers && row.role == Follower
    ensures QueueOk(queue, consumers[r := row], requests[r := request])
  {
  }

  lemma NewConsumerOwners(consumers: Consumers, results: Results, attempts: Attempts, r: Id, row: ConsumerRow)
    requires OwnersOk(consumers, results) && SuccessOk(results, consumers, attempts)
    requires r !in consumers && r !in results && !row.state.Completed?
    ensures OwnersOk(consumers[r := row], results) && SuccessOk(results, consumers[r := row], attempts)
  {
  }

  lemma FollowerEpisode(history: History, consumers: Consumers, flights: Flights, r: Id, row: ConsumerRow)
    requires EpisodesOk(history, consumers, flights) && FlightsOk(flights, consumers) && r !in consumers
    requires row.fingerprint in flights && flights[row.fingerprint].active
    ensures flights[row.fingerprint].leader in history.episode
    ensures EpisodesOk(history.(episode := history.episode[r := history.episode[flights[row.fingerprint].leader]]),
                       consumers[r := row], flights)
  {
    assert flights[row.fingerprint].leader in consumers;
  }

  lemma NewEpisodeSenders(history: History, attempts: Attempts, flights: Flights, r: Id, episode: Episode, activations: nat)
    requires SendersOk(history, attempts, flights) && r !in history.episode
    requires forall fp :: fp in flights && flights[fp].active ==> flights[fp].leader in history.episode
    ensures SendersOk(History(history.started, history.episode[r := episode], activations), attempts, flights)
  {
  }

  lemma ActiveLeaders(history: History, consumers: Consumers, flights: Flights)
    requires EpisodesOk(history, consumers, flights) && FlightsOk(flights, consumers)
    ensures forall fp :: fp in flights && flights[fp].active ==> flights[fp].leader in history.episode
  {
  }

  function Joined(db: Db, r: Id, request: Request, row: ConsumerRow): Db
    requires row.fingerprint in db.flights && db.flights[row.fingerprint].leader in db.history.episode
  {
    db.(requests := db.requests[r := request], consumers := db.consumers[r := row], audited := db.audited + {r},
        history := db.history.(episode := db.history.episode[r := db.history.episode[db.flights[row.fingerprint].leader]]))
  }

  lemma JoinKeepsInv(db: Db, r: Id, task: Id, fp: Id, domain: Id, now: Time)
    requires Inv(db) && r !in db.requests && fp in db.flights && db.flights[fp].active
    ensures var tx := JoinFlight(db.(requests := db.requests[r := Request(task, fp, ReqQueued)]), r, fp, domain, now);
            && db.flights[fp].leader in db.consumers
            && (if db.consumers[db.flights[fp].leader].domain != domain then tx == Abort(ScopeMismatch)
                else tx.Commit? && Inv(tx.db))
  {
    var request, row := Request(task, fp, ReqQueued), ConsumerRow(fp, Follower, Active, domain, now);
    FlightLeaderKnown(db, fp);
    JoinIs(db, r, request, fp, domain, now);
    hide Inv, JoinFlight, Joined;
    if db.consumers[db.flights[fp].leader].domain == domain {
      JoinedKeepsInv(db, r, request, row);
    }
  }

  lemma FlightLeaderKnown(db: Db, fp: Id)
    requires Inv(db) && fp in db.flights && db.flights[fp].active
    ensures db.flights[fp].leader in db.consumers && db.flights[fp].leader in db.history.episode
  {
    hide RequestsOk, ConsumersOk, QueueOk, OwnersOk, AttemptsOk, OneActive, ReservationsOk, Accounting,
         HoldingsOk, StartsOk, SuccessOk, SendersOk, LeadersQueued;
  }

  lemma JoinIs(db: Db, r: Id, request: Request, fp: Id, domain: Id, now: Time)
    requires fp in db.flights && db.flights[fp].leader in db.consumers && db.flights[fp].leader in db.history.episode
    ensures var row := ConsumerRow(fp, Follower, Active, domain, now);
            JoinFlight(db.(requests := db.requests[r := request]), r, fp, domain, now)
            == if db.consumers[db.flights[fp].leader].domain != domain then Abort(ScopeMismatch)
               else Commit(Joined(db, r, request, row), AsFollower(db.flights[fp].leader))
  {
  }

  lemma JoinedKeepsInv(db: Db, r: Id, request: Request, row: ConsumerRow)
    requires Inv(db) && r !in db.requests && row.fingerprint in db.flights && db.flights[row.fingerprint].active
    requires request.state == ReqQueued && row.fingerprint == request.fingerprint && row.role == Follower && row.state == Active
    requires db.flights[row.fingerprint].leader in db.consumers && db.flights[row.fingerprint].leader in db.history.episode
    requires db.consumers[db.flights[row.fingerprint].leader].domain == row.domain
    ensures Inv(Joined(db, r, request, row))
  {
    hide RequestsOk, ConsumersOk, FlightsOk, QueueOk, OwnersOk, AttemptsOk, OneActive, ReservationsOk, Accounting,
         HoldingsOk, StartsOk, SuccessOk, EpisodesOk, SendersOk, LeadersQueued;
    SameKeys(db.requests, db.consumers, db.audited);
    JoinParts(db, r, request, row);
    FollowerJoins(db.flights, db.consumers, r, row);
  }

  lemma Untouched(requests: Requests, results: Results, r: Id)
    requires RequestsOk(requests, results) && r !in requests
    ensures r !in results
  {
  }

  lemma JoinParts(db: Db, r: Id, request: Request, row: ConsumerRow)
    requires Inv(db) && r !in db.requests && row.fingerprint in db.flights && db.flights[row.fingerprint].active
    requires request.state == ReqQueued && row.fingerprint == request.fingerprint
    requires row.role == Follower && row.state == Active
    ensures RequestsOk(db.requests[r := request], db.results)
    ensures ConsumersOk(db.requests[r := request], db.consumers[r := row], db.audited + {r})
    ensures QueueOk(db.queue, db.consumers[r := row], db.requests[r := request])
    ensures OwnersOk(db.consumers[r := row], db.results) && SuccessOk(db.results, db.consumers[r := row], db.attempts)
    ensures AttemptsOk(db.attempts, db.queue, db.requests[r := request], GenerationOf(db.lease))
    ensures HoldingsOk(db.attempts, db.reservations, db.requests[r := request])
    ensures LeadersQueued(db.requests[r := request], db.consumers[r := row])
    ensures db.flights[row.fingerprint].leader in db.history.episode
    ensures var history := db.history.(episode := db.history.episode[r := db.history.episode[db.flights[row.fingerprint].leader]]);
            EpisodesOk(history, db.consumers[r := row], db.flights) && SendersOk(history, db.attempts, db.flights)
  {
    hide RequestsOk, ConsumersOk, FlightsOk, QueueOk, OwnersOk, AttemptsOk, OneActive, ReservationsOk, Accounting,
         HoldingsOk, StartsOk, SuccessOk, EpisodesOk, SendersOk;
    SameKeys(db.requests, db.consumers, db.audited);
    Untouched(db.requests, db.results, r);
    NewRequest(db.requests, db.results, r, request);
    NewRequestAttempts(db.attempts, db.queue, db.requests, db.reservations, GenerationOf(db.lease), r, request);
    NewConsumer(db.requests, db.consumers, db.audited, r, request, row);
    FollowerQueue(db.queue, db.consumers, db.requests, r, row, request);
    NewConsumerOwners(db.consumers, db.results, db.attempts, r, row);
    FollowerEpisode(db.history, db.consumers, db.flights, r, row);
    EpisodeKeys(db.history, db.consumers, db.flights);
    ActiveLeaders(db.history, db.consumers, db.flights);
    NewEpisodeSenders(db.history, db.attempts, db.flights, r, db.history.episode[db.flights[row.fingerprint].leader], db.history.activations);
  }

  lemma EpisodeKeys(history: History, consumers: Consumers, flights: Flights)
    requires EpisodesOk(history, consumers, flights)
    ensures history.episode.Keys == consumers.Keys
  {
  }

  // ---------------------------------------------------------------- a new flight

  lemma NobodyWaits(flights: Flights, consumers: Consumers, fp: Id)
    requires FlightsOk(flights, consumers) && !(fp in flights && flights[fp].active)
    ensures forall c :: c in consumers && consumers[c].fingerprint == fp ==> consumers[c].state != Active
  {
  }

  lemma FlightOpens(flights: Flights, consumers: Consumers, fp: Id, r: Id, row: ConsumerRow, active: bool)
    requires FlightsOk(flights, consumers) && !(fp in flights && flights[fp].active) && r !in consumers
    requires row.fingerprint == fp && row.role == Leader && !row.state.Completed? && (active <==> row.state == Active)
    ensures FlightsOk(flights[fp := Flight(r, active)], consumers[r := row])
  {
    NobodyWaits(flights, consumers, fp);
  }

  lemma EntryOpens(queue: Queue, consumers: Consumers, requests: Requests, r: Id, row: ConsumerRow, request: Request, entry: Entry)
    requires QueueOk(queue, consumers, requests) && r !in consumers
    requires row.role == Leader && entry.domain == row.domain && entry.task == request.task
    requires if row.state == Active then entry.state == InQueue else entry.state == Rejected
    ensures QueueOk(queue[r := entry], consumers[r := row], requests[r := request])
  {
  }

  lemma AttemptsElsewhere(attempts: Attempts, queue: Queue, requests: Requests, g: nat, r: Id, entry: Entry)
    requires AttemptsOk(attempts, queue, requests, g) && AttemptsOf(attempts, r) == {}
    ensures AttemptsOk(attempts, queue[r := entry], requests, g)
  {
    forall a | a in attempts
      ensures attempts[a].request != r
    {
      assert attempts[a].request == r ==> a in AttemptsOf(attempts, r);
    }
  }

  lemma EpisodeOpens(history: History, consumers: Consumers, flights: Flights, attempts: Attempts,
                     fp: Id, r: Id, row: ConsumerRow, active: bool)
    requires EpisodesOk(history, consumers, flights) && FlightsOk(flights, consumers) && SendersOk(history, attempts, flights)
    requires !(fp in flights && flights[fp].active) && r !in consumers
    requires row.fingerprint == fp && row.role == Leader
    ensures var begun := History(history.started, history.episode[r := Episode(history.activations, fp)], history.activations + 1);
            && EpisodesOk(begun, consumers[r := row], flights[fp := Flight(r, active)])
            && SendersOk(begun, attempts, flights[fp := Flight(r, active)])
  {
    NobodyWaits(flights, consumers, fp);
    ActiveLeaders(history, consumers, flights);
    EpisodeOpens1(history, consumers, flights, fp, r, row, active);
    NewEpisodeSenders(history, attempts, flights, r, Episode(history.activations, fp), history.activations + 1);
  }

  lemma EpisodeOpens1(history: History, consumers: Consumers, flights: Flights, fp: Id, r: Id, row: ConsumerRow, active: bool)
    requires EpisodesOk(history, consumers, flights)
    requires forall c :: c in consumers && consumers[c].fingerprint == fp ==> consumers[c].state != Active
    requires r !in consumers && row.fingerprint == fp
    ensures EpisodesOk(History(history.started, history.episode[r := Episode(history.activations, fp)], history.activations + 1),
                       consumers[r := row], flights[fp := Flight(r, active)])
  {
  }

  lemma OpenParts(db: Db, r: Id, request: Request, row: ConsumerRow, entry: Entry, active: bool)
    requires Inv(db) && r !in db.requests
    requires !(row.fingerprint in db.flights && db.flights[row.fingerprint].active)
    requires request.state == ReqQueued && row.fingerprint == request.fingerprint && row.role == Leader
    requires row.state == (if active then Active else Left)
    requires entry.domain == row.domain && entry.task == request.task
    requires entry.state == (if active then InQueue else Rejected)
    ensures RequestsOk(db.requests[r := request], db.results) && r !in db.results && r !in db.queue && r !in db.consumers
    ensures ConsumersOk(db.requests[r := request], db.consumers[r := row.(state := Active)], db.audited + {r})
    ensures FlightsOk(db.flights[row.fingerprint := Flight(r, active)], db.consumers[r := row])
    ensures QueueOk(db.queue[r := entry], db.consumers[r := row], db.requests[r := request])
    ensures OwnersOk(db.consumers[r := row], db.results) && SuccessOk(db.results, db.consumers[r := row], db.attempts)
    ensures AttemptsOk(db.attempts, db.queue[r := entry], db.requests[r := request], GenerationOf(db.lease))
    ensures HoldingsOk(db.attempts, db.reservations, db.requests[r := request])
    ensures LeadersQueued(db.requests[r := request], db.consumers[r := row])
    ensures AttemptsOf(db.attempts, r) == {}
    ensures var begun := History(db.history.started, db.history.episode[r := Episode(db.history.activations, row.fingerprint)],
                                  db.history.activations + 1);
            && EpisodesOk(begun, db.consumers[r := row], db.flights[row.fingerprint := Flight(r, active)])
            && SendersOk(begun, db.attempts, db.flights[row.fingerprint := Flight(r, active)])
  {
    hide RequestsOk, ConsumersOk, FlightsOk, QueueOk, OwnersOk, AttemptsOk, OneActive, ReservationsOk, Accounting,
         HoldingsOk, StartsOk, SuccessOk, EpisodesOk, SendersOk;
    var g := GenerationOf(db.lease);
    SameKeys(db.requests, db.consumers, db.audited);
    QueueKeys(db.queue, db.consumers, db.requests);
    Untouched(db.requests, db.results, r);
    NewRequest(db.requests, db.results, r, request);
    NewRequestAttempts(db.attempts, db.queue, db.requests, db.reservations, g, r, request);
    NewConsumer(db.requests, db.consumers, db.audited, r, request, row.(state := Active));
    FlightOpens(db.flights, db.consumers, row.fingerprint, r, row, active);
    EntryOpens(db.queue, db.consumers, db.requests, r, row, request, entry);
    AttemptsElsewhere(db.attempts, db.queue, db.requests[r := request], g, r, entry);
    NewConsumerOwners(db.consumers, db.results, db.attempts, r, row);
    EpisodeOpens(db.history, db.consumers, db.flights, db.attempts, row.fingerprint, r, row, active);
  }

  lemma QueueKeys(queue: Queue, consumers: Consumers, requests: Requests)
    requires QueueOk(queue, consumers, requests)
    ensures queue.Keys <= consumers.Keys
  {
  }

  // A rejected request is closed in the transaction that inserted it.
  lemma RejectedConsumer(requests: Requests, consumers: Consumers, audited: set<Id>, r: Id, kind: ResultKind)
    requires ConsumersOk(requests, consumers, audited) && r in consumers && kind != OutSucceeded
    ensures ConsumersOk(CloseRequests(requests, {r}, kind), consumers[r := consumers[r].(state := Left)], audited)
  {
    assert StateOf(kind) != ReqQueued;
  }

  lemma CloseKeepsSuccess(results: Results, consumers: Consumers, attempts: Attempts, closed: set<Id>, result: Result)
    requires SuccessOk(results, consumers, attempts) && result.kind != OutSucceeded
    ensures SuccessOk(CloseResults(results, closed, result), consumers, attempts)
  {
  }

  lemma CloseKeepsLeaders(requests: Requests, consumers: Consumers, closed: set<Id>, kind: ResultKind)
    requires LeadersQueued(requests, consumers)
    requires forall r :: r in closed && r in consumers ==> consumers[r].state != Active
    ensures LeadersQueued(CloseRequests(requests, closed, kind), consumers)
  {
  }

  lemma NoActiveAttempt(attempts: Attempts, r: Id)
    requires AttemptsOf(attempts, r) == {}
    ensures !HasActiveAttempt(attempts, r)
  {
    forall a | a in attempts
      ensures attempts[a].request != r
    {
      assert attempts[a].request == r ==> a in AttemptsOf(attempts, r);
    }
  }

  lemma OpenKeepsInv(db: Db, r: Id, task: Id, fp: Id, domain: Id, now: Time, policy: QueuePolicy)
    requires Inv(db) && r !in db.requests && !(fp in db.flights && db.flights[fp].active)
    ensures var tx := OpenFlight(db.(requests := db.requests[r := Request(task, fp, ReqQueued)]), r, task, fp, domain, now, policy);
            tx.Commit? && Inv(tx.db)
  {
    hide RequestsOk, ConsumersOk, FlightsOk, QueueOk, OwnersOk, AttemptsOk, OneActive, ReservationsOk, Accounting,
         HoldingsOk, StartsOk, SuccessOk, EpisodesOk, SendersOk, LeadersQueued, CloseRequests, CloseResults;
    var request := Request(task, fp, ReqQueued);
    var full := QueueFull(db.queue, domain, task, policy);
    var row := ConsumerRow(fp, Leader, if full then Left else Active, domain, now);
    var entry := Entry(domain, task, now, if full then Rejected else InQueue);
    OpenParts(db, r, request, row, entry, !full);
    if full {
      var requests, consumers, queue := db.requests[r := request], db.consumers[r := row], db.queue[r := entry];
      var result := Result(OutFailed, now, Some(QUEUE_FULL));
      CloseKeepsRequests(requests, db.results, {r}, result);
      assert consumers == db.consumers[r := row.(state := Active)][r := row];
      RejectedConsumer(requests, db.consumers[r := row.(state := Active)], db.audited + {r}, r, OutFailed);
      CloseKeepsOwners(consumers, db.results, {r}, result);
      CloseKeepsQueue(queue, consumers, requests, {r}, OutFailed);
      NoActiveAttempt(db.attempts, r);
      CloseKeepsAttempts(db.attempts, queue, requests, db.reservations, {r}, OutFailed, GenerationOf(db.lease));
      CloseKeepsSuccess(db.results, consumers, db.attempts, {r}, result);
      CloseKeepsLeaders(requests, consumers, {r}, OutFailed);
    }
  }

  lemma AdmissionIdle(db: Db, r: Id, request: Request)
    requires Inv(db) && r !in db.requests
    ensures Idle(db.(requests := db.requests[r := request]))
  {
    hide QueueOk, OwnersOk, AttemptsOk, OneActive, ReservationsOk, Accounting, HoldingsOk, StartsOk, SuccessOk, EpisodesOk, SendersOk,
         RequestsOk, ConsumersOk, FlightsOk;
    InvIsIdle(db);
  }

  // With nothing to reconcile, admission joins the active flight of the fingerprint or opens a new one.
  lemma AdmitBranches(db: Db, r: Id, task: Id, fp: Id, domain: Id, token: Token, now: Time, policy: QueuePolicy)
    requires Inv(db) && Fence(db.lease, token, now).None? && r !in db.requests
    ensures var added := db.(requests := db.requests[r := Request(task, fp, ReqQueued)]);
            Admit(db, r, task, fp, domain, token, now, policy)
            == if fp in db.flights && db.flights[fp].active then JoinFlight(added, r, fp, domain, now)
               else OpenFlight(added, r, task, fp, domain, now, policy)
  {
    hide QueueOk, OwnersOk, AttemptsOk, OneActive, ReservationsOk, Accounting, HoldingsOk, StartsOk, SuccessOk, EpisodesOk, SendersOk,
         RequestsOk, ConsumersOk, FlightsOk, LeadersQueued, JoinFlight, OpenFlight, Reconcile, Idle, Fence;
    AdmissionIdle(db, r, Request(task, fp, ReqQueued));
    ReconcileIdle(db.(requests := db.requests[r := Request(task, fp, ReqQueued)]), Some(fp));
    SameKeys(db.requests, db.consumers, db.audited);
    if !(fp in db.flights && db.flights[fp].active) {
      NobodyWaits(db.flights, db.consumers, fp);
    }
  }

  // An active flight of this fingerprint runs in another rate domain.
  ghost predicate OtherDomain(db: Db, fp: Id, domain: Id) {
    fp in db.flights && db.flights[fp].active
    && db.flights[fp].leader in db.consumers && db.consumers[db.flights[fp].leader].domain != domain
  }

  /** Admission under a valid lease takes none of its consistency branches: it fails exactly for a repeated
      identifier, or a follower whose rate domain is not the leader's. */
  lemma AdmitTotal(db: Db, r: Id, task: Id, fp: Id, domain: Id, token: Token, now: Time, policy: QueuePolicy)
    requires Inv(db) && Fence(db.lease, token, now).None?
    ensures var tx := Admit(db, r, task, fp, domain, token, now, policy);
            && (tx.Abort? ==> tx.fault == DuplicateKey || tx.fault == ScopeMismatch)
            && (tx == Abort(DuplicateKey) <==> r in db.requests)
            && (tx == Abort(ScopeMismatch) <==> r !in db.requests && OtherDomain(db, fp, domain))
            && (tx.Commit? ==> Inv(tx.db))
  {
    hide Inv, JoinFlight, OpenFlight, Reconcile, Fence;
    if r !in db.requests {
      AdmitBranches(db, r, task, fp, domain, token, now, policy);
      if fp in db.flights && db.flights[fp].active {
        JoinKeepsInv(db, r, task, fp, domain, now);
      } else {
        OpenKeepsInv(db, r, task, fp, domain, now, policy);
      }
    }
  }
}
