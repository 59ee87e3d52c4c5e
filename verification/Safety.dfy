/** What holds over whole runs: recovery, one sender per flight, final results, sound successes, fencing. */
module Safety {
  import opened Basics
  import opened Tables
  import opened Transactions
  import opened Invariant
  import opened DeliveryProofs
  import opened FlightProofs
  import opened ResultProofs
  import opened AttemptProofs
  import opened CancelProofs
  import opened RecoveryProofs
  import opened Evolution
  import opened Runs

  // ---------------------------------------------------------------- recovery

  /** In every state of every disciplined run the only thing that stops a takeover is a lease that is not expired. */
  lemma RecoveryAlwaysSucceeds(steps: seq<Step>, i: nat, owner: Id, now: Time, duration: nat)
    requires DisciplinedRun(steps) && i <= |steps|
    ensures var db := At(steps, i);
            var tx := RecoverLease(db, owner, now, duration);
            && (tx.Commit? <==> db.lease.Some? && db.lease.value.active
                                && db.lease.value.heartbeatAt <= now && db.lease.value.expiresAt <= now)
            && (tx.Commit? ==> CalmGates(db, tx.db) && RequeuedOnly(db, tx.db)
                               && tx.db.attempts == InterruptAttempts(db.attempts, GenerationOf(db.lease)))
  {
    hide Inv, CalmGates, RequeuedOnly, RecoverLease, InterruptAttempts, At;
    var db := At(steps, i);
    RunInv(steps, i);
    if RecoverLease(db, owner, now, duration).Commit? {
      RecoverGuard(db, owner, now, duration);
    }
    if db.lease.Some? && db.lease.value.active && db.lease.value.heartbeatAt <= now && db.lease.value.expiresAt <= now {
      RecoverTotal(db, owner, now, duration);
    }
  }

  /** Reconciliation has nothing to do in any state of any disciplined run. */
  lemma NothingToReconcile(steps: seq<Step>, i: nat, filter: Option<Id>)
    requires DisciplinedRun(steps) && i <= |steps|
    ensures Reconcile(At(steps, i), filter) == Commit(At(steps, i), ())
  {
    hide Inv, Reconcile, At;
    RunInv(steps, i);
    ReconcileNoOp(At(steps, i), filter);
  }

  // ---------------------------------------------------------------- one sender per flight

  // Step `i` marks attempt `a` of request `r` started.
  ghost predicate Sends(steps: seq<Step>, i: nat, a: Id, r: Id)
    requires i < |steps|
  {
    && steps[i].op.Start? && steps[i].op.a == a && Effect(At(steps, i), steps[i]).Some?
    && a in At(steps, i).attempts && At(steps, i).attempts[a].request == r
  }

  lemma MarkFacts(db: Db, a: Id, token: Token, now: Time)
    requires MarkStarted(db, a, token, now).Commit?
    ensures a in db.attempts && db.attempts[a].state == Reserved
    ensures var after := MarkStarted(db, a, token, now).db;
            && after.history.started == db.history.started + [a]
            && a in after.attempts && after.attempts[a] == db.attempts[a].(state := Started)
            && after.consumers == db.consumers && after.flights == db.flights
  {
  }

  lemma SentAfter(steps: seq<Step>, i: nat, a: Id, r: Id)
    requires i < |steps| && Sends(steps, i, a, r)
    ensures At(steps, i).attempts[a].state == Reserved
    ensures var after := At(steps, i + 1);
            && a in after.history.started && a in after.attempts && after.attempts[a].request == r
            && after.attempts[a].state == Started
  {
    hide MarkStarted, At;
    AtNext(steps, i);
    MarkFacts(At(steps, i), a, steps[i].op.token, steps[i].now);
  }

  lemma StartedStays(before: Db, after: Db, a: Id)
    requires Evolves(before, after) && a in before.attempts && before.attempts[a].state != Reserved && a in before.history.started
    ensures a in after.attempts && after.attempts[a].state != Reserved && a in after.history.started
    ensures after.attempts[a].request == before.attempts[a].request
  {
  }

  lemma SentLater(steps: seq<Step>, i: nat, j: nat, a: Id, r: Id)
    requires DisciplinedRun(steps) && i < j <= |steps| && Sends(steps, i, a, r)
    ensures var after := At(steps, j);
            && a in after.history.started && a in after.attempts && after.attempts[a].request == r && after.attempts[a].state != Reserved
  {
    hide Evolves, At, Sends;
    SentAfter(steps, i, a, r);
    RunEvolves(steps, i + 1, j);
    StartedStays(At(steps, i + 1), At(steps, j), a);
  }

  /** No physical attempt is ever started twice. */
  lemma StartedOnce(steps: seq<Step>, i: nat, j: nat, a: Id, r: Id, s: Id)
    requires DisciplinedRun(steps) && i < j < |steps|
    requires Sends(steps, i, a, r)
    ensures !Sends(steps, j, a, s)
  {
    hide At;
    if Sends(steps, j, a, s) {
      SentLater(steps, i, j, a, r);
      SentAfter(steps, j, a, s);
      assert false;
    }
  }

  lemma ClaimedForGood(db: Db, a: Id)
    requires Inv(db) && a in db.attempts
    ensures db.attempts[a].request in db.queue && db.queue[db.attempts[a].request].state != InQueue
  {
    hide RequestsOk, ConsumersOk, FlightsOk, QueueOk, OwnersOk, OneActive, ReservationsOk, Accounting,
         HoldingsOk, StartsOk, SuccessOk, EpisodesOk, SendersOk, LeadersQueued;
  }

  /** A request that was sent is never put back into the queue, whatever recoveries follow. */
  lemma NeverRequeued(steps: seq<Step>, i: nat, j: nat, a: Id, r: Id)
    requires DisciplinedRun(steps) && i < j <= |steps| && Sends(steps, i, a, r)
    ensures r in At(steps, j).queue && At(steps, j).queue[r].state != InQueue
  {
    hide Inv, At, Sends;
    SentLater(steps, i, j, a, r);
    RunInv(steps, j);
    ClaimedForGood(At(steps, j), a);
  }

  // ---- the episode of an active flight

  ghost predicate ActiveFlight(db: Db, fp: Id) {
    fp in db.flights && db.flights[fp].active
  }

  // While a flight stays active, whoever leads it belongs to the same episode.
  ghost predicate EpisodeStays(before: Db, after: Db) {
    forall fp :: ActiveFlight(before, fp) && ActiveFlight(after, fp) ==>
      && before.flights[fp].leader in before.history.episode && after.flights[fp].leader in after.history.episode
      && after.history.episode[after.flights[fp].leader] == before.history.episode[before.flights[fp].leader]
  }

  lemma KnownLeaders(db: Db)
    requires Inv(db)
    ensures forall fp :: ActiveFlight(db, fp) ==> db.flights[fp].leader in db.history.episode
    ensures forall fp, r :: ActiveFlight(db, fp) && Waiting(db.consumers, fp, r) ==>
              r in db.history.episode && db.history.episode[r] == db.history.episode[db.flights[fp].leader]
  {
    hide RequestsOk, ConsumersOk, QueueOk, OwnersOk, AttemptsOk, OneActive, ReservationsOk, Accounting,
         HoldingsOk, StartsOk, SuccessOk, SendersOk, LeadersQueued;
  }

  // Flights that are still active kept their leader.
  ghost predicate LeadersStay(before: Flights, after: Flights) {
    forall fp :: fp in before && before[fp].active && fp in after && after[fp].active ==> after[fp].leader == before[fp].leader
  }

  lemma SameLeaders(before: Db, after: Db)
    requires Inv(before) && LeadersStay(before.flights, after.flights) && HistoryKept(before.history, after.history)
    ensures EpisodeStays(before, after)
  {
    hide Inv;
    KnownLeaders(before);
  }

  lemma EndedLeaders(flights: Flights, fps: set<Id>)
    ensures LeadersStay(flights, EndFlights(flights, fps))
  {
  }

  lemma FinalizeFlights(db: Db, r: Id, result: Result, token: Token, now: Time)
    requires Finalize(db, r, result, token, now).Commit?
    ensures LeadersStay(db.flights, Finalize(db, r, result, token, now).db.flights)
  {
    hide Close, Deliver, Deliverable, AttemptFault, LeadersStay, Fence, Queued;
    ClosedFlights(db, r, result);
    UnchangedLeaders(db.flights);
    if r in db.consumers {
      DeliveredFlights(Close(db, {r}, result), {db.consumers[r].fingerprint});
    }
  }

  lemma ClosedFlights(db: Db, r: Id, result: Result)
    ensures Close(db, {r}, result).flights == db.flights && Close(db, {r}, result).consumers == db.consumers
  {
    hide CloseRequests, CloseResults;
  }

  lemma DeliveredFlights(db: Db, fps: set<Id>)
    ensures LeadersStay(db.flights, Deliver(db, fps).flights)
  {
    hide DeliverRequests, DeliverResults, DeliverConsumers, WithdrawLeaders, Receivers;
  }

  lemma RecoverFlights(db: Db, owner: Id, now: Time, duration: nat)
    requires Inv(db) && RecoverLease(db, owner, now, duration).Commit?
    ensures LeadersStay(db.flights, RecoverLease(db, owner, now, duration).db.flights)
  {
    hide Inv, RecoverLease, Reconcile, Interrupt, LeaderFinished, EndFlights;
    var g := GenerationOf(db.lease);
    var interrupted := Interrupt(db, g, now);
    var done := set fp | fp in interrupted.flights && interrupted.flights[fp].active && LeaderFinished(interrupted, fp);
    RecoverIs(db, owner, now, duration);
    ReconcileFrame(interrupted, done);
    InterruptHistory(db, g, now);
    EndedLeaders(db.flights, done);
  }

  lemma AdmitFlights(db: Db, r: Id, task: Id, fp: Id, domain: Id, token: Token, now: Time, limits: QueuePolicy)
    requires Inv(db) && Admit(db, r, task, fp, domain, token, now, limits).Commit?
    ensures LeadersStay(db.flights, Admit(db, r, task, fp, domain, token, now, limits).db.flights)
  {
    hide Inv, Admit, Fence, QueueFull, JoinFlight, OpenFlight;
    AdmitGuard(db, r, task, fp, domain, token, now, limits);
    AdmitTotal(db, r, task, fp, domain, token, now, limits);
    AdmitBranches(db, r, task, fp, domain, token, now, limits);
    var added := db.(requests := db.requests[r := Request(task, fp, ReqQueued)]);
    if fp in db.flights && db.flights[fp].active {
      JoinedFlights(added, r, fp, domain, now);
    } else {
      OpenedFlights(added, r, task, fp, domain, now, limits);
    }
  }

  lemma JoinedFlights(db: Db, r: Id, fp: Id, domain: Id, now: Time)
    requires fp in db.flights && JoinFlight(db, r, fp, domain, now).Commit?
    ensures JoinFlight(db, r, fp, domain, now).db.flights == db.flights
  {
  }

  lemma OpenedFlights(db: Db, r: Id, task: Id, fp: Id, domain: Id, now: Time, limits: QueuePolicy)
    requires OpenFlight(db, r, task, fp, domain, now, limits).Commit?
    ensures OpenFlight(db, r, task, fp, domain, now, limits).db.flights
            == db.flights[fp := Flight(r, !QueueFull(db.queue, domain, task, limits))]
  {
    hide QueueFull, OpenFlight;
    if QueueFull(db.queue, domain, task, limits) {
      RejectedTables(db, r, task, fp, domain, now, limits);
    } else {
      OpenedTables(db, r, task, fp, domain, now, limits);
    }
  }

  lemma SentCancelledFlights(db: Db, r: Id, fp: Id, reason: Id, now: Time)
    requires fp in db.flights
    ensures LeadersStay(db.flights, SentCancelled(db, r, fp, reason, now).flights)
    ensures SentCancelled(db, r, fp, reason, now).history == db.history
  {
    hide Lowered, Settle, EndLive, CloseRequests, CloseResults, Leave;
  }

  lemma ReplacedFlights(db: Db, r: Id, fp: Id, next: Option<Id>, reason: Id, now: Time)
    requires Inv(db) && fp in db.flights && db.flights[fp].active && r in db.queue
    requires next.Some? ==> next.value in db.consumers && next.value in db.requests && Waiting(db.consumers, fp, next.value)
    ensures EpisodeStays(db, Replaced(db, r, fp, next, reason, now))
  {
    hide Inv, Lowered, Settle, EndLive, CloseRequests, CloseResults, Leave, Waiting;
    KnownLeaders(db);
  }

  lemma CancelEpisodes(db: Db, r: Id, reason: Id, token: Token, now: Time)
    requires Inv(db) && Cancel(db, r, reason, token, now).Commit?
    ensures EpisodeStays(db, Cancel(db, r, reason, token, now).db)
  {
    hide Inv, Fence, CancelLeader, ReplaceLeader, SentCancelled, Replaced, EpisodeStays, LeadersStay, NextLeader, MayHaveBeenSent, Freed, Leave, Waiting;
    CancelGuard(db, r, reason, token, now);
    CancelTotal(db, r, reason, token, now);
    var fp := db.consumers[r].fingerprint;
    if db.consumers[r].role == Follower {
      FollowerEpisodes(db, Cancel(db, r, reason, token, now).db);
    } else {
      CancelLeaderBranches(db, r, reason, now);
      if MayHaveBeenSent(db.attempts, r) {
        SentCancelledFlights(db, r, fp, reason, now);
        FollowerHistory(db.history);
        SameLeaders(db, SentCancelled(db, r, fp, reason, now));
      } else {
        LeaderFlight(db, r);
        LeaderIsQueued(db, r);
        NextFollower(db.consumers, fp);
        NotItself(db, r);
        ReplacedIs(db, r, reason, now);
        ReplacedFlights(db, r, fp, NextLeader(db.consumers, fp), reason, now);
      }
    }
  }

  lemma NotItself(db: Db, r: Id)
    requires r in db.consumers && db.consumers[r].role == Leader
    ensures NextLeader(db.consumers, db.consumers[r].fingerprint) != Some(r)
  {
    hide NextLeader;
    NextFollower(db.consumers, db.consumers[r].fingerprint);
  }

  lemma LeaderFlight(db: Db, r: Id)
    requires Inv(db) && r in db.consumers && db.consumers[r].role == Leader && db.consumers[r].state == Active
    ensures db.consumers[r].fingerprint in db.flights && db.flights[db.consumers[r].fingerprint] == Flight(r, true)
  {
    hide RequestsOk, ConsumersOk, FlightsOk, QueueOk, OwnersOk, AttemptsOk, OneActive, ReservationsOk, Accounting,
         HoldingsOk, StartsOk, SuccessOk, EpisodesOk, SendersOk, LeadersQueued;
    FlightOf(db.flights, db.consumers, r);
  }

  lemma FollowerHistory(history: History)
    ensures HistoryKept(history, history)
  {
  }

  lemma FollowerEpisodes(before: Db, after: Db)
    requires Inv(before) && after.flights == before.flights && after.history == before.history
    ensures EpisodeStays(before, after)
  {
    hide Inv;
    FollowerHistory(before.history);
    SameLeaders(before, after);
  }

  lemma OtherFlights(db: Db, s: Step)
    requires Inv(db) && Effect(db, s).Some?
    requires !s.op.AdmitRequest? && !s.op.CancelRequest? && !s.op.FinalizeRequest? && !s.op.TakeOver?
    ensures Next(db, s).flights == db.flights
  {
    hide Inv, AcquireLease, AcquireGates, FinishGates, Claim, ReserveAttempt, DiscardAttempt, MarkStarted, Heartbeat, ReleaseLease,
         Raised, WithStart, FirstBlocked;
    match s.op
    case Beat(token, duration) => LeaseFlights(db, token, s.now, duration);
    case GiveUp(token) => LeaseFlights(db, token, s.now, 0);
    case ReserveNext(a, r, token) => ReserveFacts(db, a, r, token, s.now);
    case Discard(a, token) => AttemptFlights(db, a, token, s.now);
    case Start(a, token) => AttemptFlights(db, a, token, s.now);
    case TakeLease(owner, duration) => AcquireLeaseTotal(db, owner, s.now, duration);
    case Acquire(v, a, attempt, keys, policy, token) => AcquireFacts(db, v, a, attempt, keys, policy, token, s.now);
    case ClaimNext(domain, token) => ClaimFlights(db, domain, token, s.now);
    case Finish(v, a, r, outcome, retryAfter, raw, token) => FinishFlights(db, v, a, r, outcome, retryAfter, raw, token, s.now);
  }

  lemma LeaseFlights(db: Db, token: Token, now: Time, duration: nat)
    ensures Heartbeat(db, token, now, duration).Commit? ==> Heartbeat(db, token, now, duration).db.flights == db.flights
    ensures ReleaseLease(db, token, now).Commit? ==> ReleaseLease(db, token, now).db.flights == db.flights
  {
  }

  lemma AttemptFlights(db: Db, a: Id, token: Token, now: Time)
    ensures DiscardAttempt(db, a, token, now).Commit? ==> DiscardAttempt(db, a, token, now).db.flights == db.flights
    ensures MarkStarted(db, a, token, now).Commit? ==> MarkStarted(db, a, token, now).db.flights == db.flights
  {
  }

  lemma ClaimFlights(db: Db, domain: Id, token: Token, now: Time)
    requires Claim(db, domain, token, now).Commit?
    ensures Claim(db, domain, token, now).db.flights == db.flights
  {
  }

  lemma FinishFlights(db: Db, v: Id, a: Id, r: Id, outcome: Outcome, retryAfter: Option<nat>, raw: bool, token: Token, now: Time)
    requires FinishGates(db, v, a, r, outcome, retryAfter, raw, token, now).Commit?
    ensures FinishGates(db, v, a, r, outcome, retryAfter, raw, token, now).db.flights == db.flights
  {
    hide Lowered, Settle, CoolDown, Releasable;
  }

  lemma StepEpisodes(db: Db, s: Step)
    requires Inv(db)
    ensures EpisodeStays(db, Next(db, s))
  {
    hide Inv, AcquireLease, RecoverLease, Admit, Cancel, Claim, AcquireGates, FinishGates, Finalize, ReserveAttempt, DiscardAttempt,
         MarkStarted, Heartbeat, ReleaseLease, EpisodeStays, LeadersStay;
    if s.op.CancelRequest? && Effect(db, s).Some? {
      CancelEpisodes(db, s.op.r, s.op.reason, s.op.token, s.now);
    } else {
      StepEvolves(db, s);
      EvolvedHistory(db, Next(db, s));
      StepLeaders(db, s);
      SameLeaders(db, Next(db, s));
    }
  }

  lemma EvolvedHistory(before: Db, after: Db)
    requires Evolves(before, after)
    ensures HistoryKept(before.history, after.history)
  {
  }

  lemma StepLeaders(db: Db, s: Step)
    requires Inv(db) && !(s.op.CancelRequest? && Effect(db, s).Some?)
    ensures LeadersStay(db.flights, Next(db, s).flights)
  {
    if Effect(db, s).Some? {
      hide Inv, AcquireLease, RecoverLease, Admit, Cancel, Claim, AcquireGates, FinishGates, Finalize, ReserveAttempt, DiscardAttempt,
           MarkStarted, Heartbeat, ReleaseLease, LeadersStay;
      if s.op.TakeOver? {
        RecoverFlights(db, s.op.owner, s.now, s.op.duration);
      } else if s.op.AdmitRequest? {
        AdmitFlights(db, s.op.r, s.op.task, s.op.fp, s.op.domain, s.op.token, s.now, s.op.limits);
      } else if s.op.FinalizeRequest? {
        FinalizeFlights(db, s.op.r, s.op.result, s.op.token, s.now);
      } else {
        OtherFlights(db, s);
        UnchangedLeaders(db.flights);
      }
    } else {
      UnchangedLeaders(db.flights);
    }
  }

  lemma UnchangedLeaders(flights: Flights)
    ensures LeadersStay(flights, flights)
  {
  }

  ghost predicate ActiveThroughout(steps: seq<Step>, i: nat, j: nat, fp: Id)
    requires i <= j <= |steps|
  {
    forall k :: i <= k <= j ==> ActiveFlight(At(steps, k), fp)
  }

  lemma {:induction false} SameEpisode(steps: seq<Step>, i: nat, j: nat, fp: Id)
    requires DisciplinedRun(steps) && i <= j <= |steps| && ActiveThroughout(steps, i, j, fp)
    ensures var before, after := At(steps, i), At(steps, j);
            && before.flights[fp].leader in before.history.episode && after.flights[fp].leader in after.history.episode
            && after.history.episode[after.flights[fp].leader] == before.history.episode[before.flights[fp].leader]
  {
    hide Inv, At, Next;
    if i == j {
      RunInv(steps, i);
      KnownLeaders(At(steps, i));
    } else {
      SameEpisode(steps, i, j - 1, fp);
      RunInv(steps, j - 1);
      StepEpisodes(At(steps, j - 1), steps[j - 1]);
      AtNext(steps, j - 1);
    }
  }

  lemma SenderLeads(db: Db, a: Id)
    requires Inv(db) && a in db.attempts && IsActive(db.attempts[a].state)
    ensures var r := db.attempts[a].request;
            r in db.consumers && db.consumers[r].fingerprint in db.flights
            && db.flights[db.consumers[r].fingerprint] == Flight(r, true) && r in db.history.episode
  {
    hide RequestsOk, ConsumersOk, FlightsOk, QueueOk, OwnersOk, AttemptsOk, OneActive, ReservationsOk, Accounting,
         HoldingsOk, StartsOk, SuccessOk, EpisodesOk, SendersOk, LeadersQueued;
    EndProofsLive(db, a);
    KnownLeaders(db);
  }

  lemma EndProofsLive(db: Db, a: Id)
    requires Inv(db) && a in db.attempts && IsActive(db.attempts[a].state)
    ensures var r := db.attempts[a].request;
            r in db.consumers && db.consumers[r].fingerprint in db.flights
            && db.flights[db.consumers[r].fingerprint] == Flight(r, true)
  {
    hide RequestsOk, OwnersOk, OneActive, ReservationsOk, Accounting, HoldingsOk, StartsOk, SuccessOk, EpisodesOk, SendersOk, LeadersQueued;
  }

  lemma SendersAgree(db: Db, a: Id, b: Id)
    requires Inv(db) && a in db.history.started && b in db.history.started
    ensures a in db.attempts && b in db.attempts
    ensures db.attempts[a].request in db.history.episode && db.attempts[b].request in db.history.episode
    ensures db.history.episode[db.attempts[a].request] == db.history.episode[db.attempts[b].request] ==>
              db.attempts[a].request == db.attempts[b].request
  {
    hide RequestsOk, ConsumersOk, FlightsOk, QueueOk, OwnersOk, AttemptsOk, OneActive, ReservationsOk, Accounting,
         HoldingsOk, StartsOk, SuccessOk, EpisodesOk, LeadersQueued;
  }

  lemma EpisodeLater(before: Db, after: Db, r: Id)
    requires Evolves(before, after) && r in before.history.episode
    ensures r in after.history.episode && after.history.episode[r] == before.history.episode[r]
  {
  }

  lemma SenderEpisode(steps: seq<Step>, i: nat, a: Id, r: Id)
    requires DisciplinedRun(steps) && i < |steps| && Sends(steps, i, a, r)
    ensures var db := At(steps, i);
            && r in db.consumers && db.consumers[r].fingerprint in db.flights
            && db.flights[db.consumers[r].fingerprint] == Flight(r, true) && r in db.history.episode
  {
    hide Inv, At;
    RunInv(steps, i);
    SentAfter(steps, i, a, r);
    SenderLeads(At(steps, i), a);
  }

  /** One sender per flight: as long as a flight stays active, through cancellations, promotions, crashes and
      recoveries, every attempt started for its fingerprint belongs to one and the same logical request. */
  lemma OneSenderPerFlight(steps: seq<Step>, i: nat, j: nat, a: Id, b: Id, r: Id, s: Id, fp: Id)
    requires DisciplinedRun(steps) && i < j < |steps| && ActiveThroughout(steps, i, j, fp)
    requires Sends(steps, i, a, r) && r in At(steps, i).consumers && At(steps, i).consumers[r].fingerprint == fp
    requires Sends(steps, j, b, s) && s in At(steps, j).consumers && At(steps, j).consumers[s].fingerprint == fp
    ensures r == s
  {
    hide Inv, At, Sends, Evolves, ActiveThroughout;
    SenderEpisode(steps, i, a, r);
    SenderEpisode(steps, j, b, s);
    SameEpisode(steps, i, j, fp);
    RunEvolves(steps, i, j + 1);
    EpisodeLater(At(steps, i), At(steps, j + 1), r);
    RunEvolves(steps, j, j + 1);
    EpisodeLater(At(steps, j), At(steps, j + 1), s);
    SentLater(steps, i, j + 1, a, r);
    SentLater(steps, j, j + 1, b, s);
    RunInv(steps, j + 1);
    SendersAgree(At(steps, j + 1), a, b);
  }

  // ---------------------------------------------------------------- results

  // The state that goes with an outcome: an unknown one counts as a failure.
  predicate Matches(state: RequestState, kind: ResultKind) {
    && (state == ReqSucceeded <==> kind == OutSucceeded)
    && (state == ReqCancelled <==> kind == OutCancelled)
    && (state == ReqFailed <==> kind == OutFailed || kind == OutUnknown)
  }

  /** A result, and the state that goes with it, never changes. */
  lemma ResultsFinal(steps: seq<Step>, i: nat, j: nat, r: Id)
    requires DisciplinedRun(steps) && i <= j <= |steps| && r in At(steps, i).results
    ensures r in At(steps, j).results && At(steps, j).results[r] == At(steps, i).results[r]
    ensures r in At(steps, j).requests && Matches(At(steps, j).requests[r].state, At(steps, i).results[r].kind)
  {
    hide Inv, At, RequestsKept, ConsumersKept, AttemptsKept, ReservationsKept, StartsKept, CooldownsKept, LeaseKept, HistoryKept;
    RunEvolves(steps, i, j);
    RunInv(steps, j);
    ResultStates(At(steps, j), r);
  }

  lemma ResultStates(db: Db, r: Id)
    requires Inv(db) && r in db.results
    ensures r in db.requests && Matches(db.requests[r].state, db.results[r].kind)
  {
    hide ConsumersOk, FlightsOk, QueueOk, OwnersOk, AttemptsOk, OneActive, ReservationsOk, Accounting,
         HoldingsOk, StartsOk, SuccessOk, EpisodesOk, SendersOk, LeadersQueued;
  }

  lemma OwnerResults(db: Db, r: Id)
    requires Inv(db) && r in db.consumers && db.consumers[r].state.Completed?
    ensures var owner := db.consumers[r].state.owner;
            owner in db.consumers && r in db.results && owner in db.results && db.results[r] == db.results[owner]
            && db.consumers[owner].fingerprint == db.consumers[r].fingerprint
  {
    hide RequestsOk, ConsumersOk, FlightsOk, QueueOk, AttemptsOk, OneActive, ReservationsOk, Accounting,
         HoldingsOk, StartsOk, SuccessOk, EpisodesOk, SendersOk, LeadersQueued;
  }

  /** A consumer that received a result keeps that owner and, in every later state, exactly the owner's result. */
  lemma OwnersAgreeForever(steps: seq<Step>, i: nat, j: nat, r: Id)
    requires DisciplinedRun(steps) && i <= j <= |steps|
    requires r in At(steps, i).consumers && At(steps, i).consumers[r].state.Completed?
    ensures var owner := At(steps, i).consumers[r].state.owner;
            var db := At(steps, j);
            && r in db.consumers && db.consumers[r].state == Completed(owner)
            && r in db.results && owner in db.results && db.results[r] == db.results[owner]
            && owner in db.consumers && db.consumers[owner].fingerprint == db.consumers[r].fingerprint
  {
    hide Inv, At, RequestsKept, ResultsKept, AttemptsKept, ReservationsKept, StartsKept, CooldownsKept, LeaseKept, HistoryKept;
    RunEvolves(steps, i, j);
    RunInv(steps, j);
    OwnerResults(At(steps, j), r);
  }

  // `receivers` complete with the leader's result; no other consumer or result changes.
  ghost predicate DeliveredTo(receivers: set<Id>, leader: Id, result: Result, consumers: Consumers, results: Results,
                              consumers': Consumers, results': Results) {
    && consumers'.Keys == consumers.Keys && receivers <= consumers.Keys
    && results'.Keys == results.Keys + receivers
    && (forall s :: s in receivers ==> consumers'[s] == consumers[s].(state := Completed(leader)) && results'[s] == result)
    && (forall s :: s in consumers && s !in receivers ==> consumers'[s] == consumers[s])
    && (forall s :: s in results ==> results'[s] == results[s])
  }

  /** Finalising a leader completes exactly the consumers of its flight that are active at that moment, each with
      the leader's outcome, completion time and error code; no other consumer or result changes. */
  lemma FinalizeDelivers(db: Db, r: Id, result: Result, token: Token, now: Time)
    requires Inv(db) && Finalize(db, r, result, token, now).Commit?
    ensures r in db.consumers && db.consumers[r].fingerprint in Finalize(db, r, result, token, now).db.flights
    ensures var after := Finalize(db, r, result, token, now).db;
            var fp := db.consumers[r].fingerprint;
            && DeliveredTo(WaitingSet(db.consumers, fp), r, result, db.consumers, db.results, after.consumers, after.results)
            && after.flights == db.flights[fp := Flight(r, false)]
  {
    hide RequestsOk, ConsumersOk, FlightsOk, QueueOk, OwnersOk, AttemptsOk, OneActive, ReservationsOk, Accounting,
         HoldingsOk, StartsOk, SuccessOk, EpisodesOk, SendersOk, LeadersQueued, Finalize, AttemptFault, Fence, Receivers,
         DeliverConsumers, DeliverResults, EndFlights, CloseResults, Waiting, Inv, WaitingSet, DeliveredTo;
    FinalizeTotal(db, r, result, token, now);
    QueuedLeader(db, r);
    LeaderFlight(db, r);
    UnfinishedWait(db, db.consumers[r].fingerprint);
    WaitsItself(db.consumers, r);
    FinalizeIs(db, r, result, token, now);
    DeliveredTables(db.results, db.consumers, db.flights, r, result);
  }

  lemma WaitsItself(consumers: Consumers, r: Id)
    requires r in consumers && consumers[r].state == Active
    ensures Waiting(consumers, consumers[r].fingerprint, r)
  {
  }

  lemma UnfinishedWait(db: Db, fp: Id)
    requires Inv(db)
    ensures forall s :: Waiting(db.consumers, fp, s) ==> s !in db.results
  {
    hide ConsumersOk, FlightsOk, QueueOk, OwnersOk, AttemptsOk, OneActive, ReservationsOk, Accounting,
         HoldingsOk, StartsOk, SuccessOk, EpisodesOk, SendersOk;
  }

  lemma QueuedLeader(db: Db, r: Id)
    requires Inv(db) && Queued(db.requests, r) && r in db.consumers
    ensures db.consumers[r].state == Active
  {
    hide RequestsOk, FlightsOk, QueueOk, OwnersOk, AttemptsOk, OneActive, ReservationsOk, Accounting,
         HoldingsOk, StartsOk, SuccessOk, EpisodesOk, SendersOk, LeadersQueued;
  }

  lemma FinalizeIs(db: Db, r: Id, result: Result, token: Token, now: Time)
    requires Finalize(db, r, result, token, now).Commit? && r in db.consumers && r !in db.results
    ensures var fp := db.consumers[r].fingerprint;
            var after := Finalize(db, r, result, token, now).db;
            var owners := Receivers(db.consumers, db.flights, {fp});
            && after.consumers == DeliverConsumers(db.consumers, owners)
            && after.results == DeliverResults(CloseResults(db.results, {r}, result), owners)
            && after.flights == EndFlights(db.flights, {fp})
  {
    hide DeliverRequests, DeliverResults, DeliverConsumers, EndFlights, WithdrawLeaders, Receivers, CloseRequests, CloseResults,
         Deliverable, AttemptFault, Fence;
  }

  lemma DeliveredTables(results: Results, consumers: Consumers, flights: Flights, r: Id, result: Result)
    requires r in consumers && consumers[r].fingerprint in flights && flights[consumers[r].fingerprint] == Flight(r, true)
    requires consumers[r].state == Active && r !in results
    requires forall s :: Waiting(consumers, consumers[r].fingerprint, s) ==> s !in results
    ensures var fp := consumers[r].fingerprint;
            var owners := Receivers(consumers, flights, {fp});
            && DeliveredTo(WaitingSet(consumers, fp), r, result, consumers, results,
                           DeliverConsumers(consumers, owners), DeliverResults(CloseResults(results, {r}, result), owners))
            && EndFlights(flights, {fp}) == flights[fp := Flight(r, false)]
  {
    var owners := Receivers(consumers, flights, {consumers[r].fingerprint});
    assert Waiting(consumers, consumers[r].fingerprint, r);
    assert owners.Keys == WaitingSet(consumers, consumers[r].fingerprint);
    assert forall s :: s in owners ==> owners[s] == r;
  }

  // ---------------------------------------------------------------- cancellation

  // Exactly `leaving` get this result and leave; every other consumer and result stays as it was.
  ghost predicate LeftWith(leaving: set<Id>, result: Result, before: Db, after: Db) {
    && leaving <= before.consumers.Keys && after.consumers.Keys == before.consumers.Keys
    && after.results.Keys == before.results.Keys + leaving
    && (forall s :: s in leaving ==> s !in before.results && after.results[s] == result && after.consumers[s].state == Left)
    && (forall s :: s in before.results ==> after.results[s] == before.results[s])
    && (forall s :: s in before.consumers && s !in leaving ==> after.consumers[s].state == before.consumers[s].state)
  }

  ghost predicate EarliestFollower(consumers: Consumers, fp: Id, next: Id) {
    && Waiting(consumers, fp, next) && consumers[next].role == Follower
    && forall s :: Waiting(consumers, fp, s) && consumers[s].role == Follower ==>
         consumers[next].joinedAt < consumers[s].joinedAt || (consumers[next].joinedAt == consumers[s].joinedAt && next <= s)
  }

  lemma NextIsEarliest(consumers: Consumers, fp: Id)
    ensures NextLeader(consumers, fp).Some? ==> EarliestFollower(consumers, fp, NextLeader(consumers, fp).value)
  {
    var followers := set s | s in consumers && Waiting(consumers, fp, s) && consumers[s].role == Follower;
    assert forall s :: Waiting(consumers, fp, s) && consumers[s].role == Follower ==> s in followers;
    if followers != {} {
      var next := NextLeader(consumers, fp).value;
      assert forall s :: s in followers ==> Before(JoinTimes(consumers), next, s);
    }
  }

  lemma LeftTables(db: Db, leaving: set<Id>, result: Result, after: Db)
    requires leaving <= db.consumers.Keys && forall s :: s in leaving ==> s !in db.results
    requires after.results == CloseResults(db.results, leaving, result) && after.consumers == Leave(db.consumers, leaving)
    ensures LeftWith(leaving, result, db, after)
  {
  }

  // What cancelling the active consumer `r` changes.
  ghost predicate Affects(db: Db, r: Id, reason: Id, now: Time, after: Db, promoted: Option<Id>)
    requires r in db.consumers
  {
    var fp := db.consumers[r].fingerprint;
    if db.consumers[r].role == Follower then
      LeftWith({r}, CancelResult(OutCancelled, now, reason), db, after) && promoted.None?
      && after.flights == db.flights && after.attempts == db.attempts && after.queue == db.queue
    else if MayHaveBeenSent(db.attempts, r) then
      LeftWith(WaitingSet(db.consumers, fp), CancelResult(OutUnknown, now, reason), db, after) && promoted.None?
      && after.flights == db.flights[fp := Flight(r, false)] && after.queue == db.queue
      && after.attempts == EndLive(db.attempts, r)
    else
      LeftWith({r}, CancelResult(OutCancelled, now, reason), db, after)
      && after.attempts == EndLive(db.attempts, r)
      && HandedOn(db, after, promoted, r, fp, now)
  }

  /** Cancelling a follower removes that follower alone. Cancelling a leader whose flight may have been sent ends the
      flight: everyone waiting leaves with outcome unknown and nobody takes over. Cancelling an unsent leader removes it
      alone, and the follower that joined first takes its place in the queue; without followers the flight ends. */
  lemma CancelAffects(db: Db, r: Id, reason: Id, token: Token, now: Time)
    requires Inv(db) && Cancel(db, r, reason, token, now).Commit?
    ensures r in db.consumers && db.consumers[r].fingerprint in db.flights
    ensures Affects(db, r, reason, now, Cancel(db, r, reason, token, now).db, Cancel(db, r, reason, token, now).value)
  {
    hide Inv, Fence, CancelLeader, Affects, CloseRequests, CloseResults, Leave;
    CancelGuard(db, r, reason, token, now);
    CancelTotal(db, r, reason, token, now);
    CancelStatesQueued(db, r);
    OpenResults(db, r);
    FlightKnown(db, r);
    if db.consumers[r].role == Follower {
      FollowerAffects(db, r, reason, now);
    } else {
      LeaderAffects(db, r, reason, now);
    }
  }

  lemma FollowerAffects(db: Db, r: Id, reason: Id, now: Time)
    requires r in db.consumers && db.consumers[r].role == Follower && r !in db.results
    ensures var after := Close(db, {r}, CancelResult(OutCancelled, now, reason)).(consumers := Leave(db.consumers, {r}));
            Affects(db, r, reason, now, after, None)
  {
    hide LeftWith, CloseRequests, CloseResults, Leave;
    LeftTables(db, {r}, CancelResult(OutCancelled, now, reason),
               Close(db, {r}, CancelResult(OutCancelled, now, reason)).(consumers := Leave(db.consumers, {r})));
  }

  lemma LeaderAffects(db: Db, r: Id, reason: Id, now: Time)
    requires Inv(db) && r in db.consumers && db.consumers[r].role == Leader && db.consumers[r].state == Active && r !in db.results
    requires CancelLeader(db, r, reason, now).Commit?
    ensures Affects(db, r, reason, now, CancelLeader(db, r, reason, now).db, CancelLeader(db, r, reason, now).value)
  {
    hide Inv, CancelLeader, SentCancelled, MayHaveBeenSent, EndLive, LeftWith, HandedOn, WaitingSet;
    if MayHaveBeenSent(db.attempts, r) {
      CancelLeaderBranches(db, r, reason, now);
      LeaderFlight(db, r);
      SentAffects(db, r, db.consumers[r].fingerprint, reason, now);
    } else {
      UnsentAffects(db, r, reason, now);
    }
  }

  // The flight goes to the follower that joined first, who takes the leader's place in the queue, or ends with its leader.
  ghost predicate HandedOn(db: Db, after: Db, promoted: Option<Id>, r: Id, fp: Id, now: Time) {
    match promoted
    case None =>
      (forall s :: Waiting(db.consumers, fp, s) ==> db.consumers[s].role == Leader) && after.flights == db.flights[fp := Flight(r, false)]
    case Some(next) =>
      && EarliestFollower(db.consumers, fp, next)
      && after.flights == db.flights[fp := Flight(next, true)]
      && next in after.consumers && after.consumers[next].role == Leader && next in db.requests
      && next in after.queue && after.queue[next] == Entry(db.consumers[next].domain, db.requests[next].task, now, InQueue)
  }

  lemma UnsentAffects(db: Db, r: Id, reason: Id, now: Time)
    requires Inv(db) && r in db.consumers && db.consumers[r].role == Leader && db.consumers[r].state == Active
    requires !MayHaveBeenSent(db.attempts, r) && r !in db.results && CancelLeader(db, r, reason, now).Commit?
    ensures var tx := CancelLeader(db, r, reason, now);
            && LeftWith({r}, CancelResult(OutCancelled, now, reason), db, tx.db)
            && tx.db.attempts == EndLive(db.attempts, r)
            && HandedOn(db, tx.db, tx.value, r, db.consumers[r].fingerprint, now)
  {
    hide Inv, CancelLeader, ReplaceLeader, Replaced, NextLeader, MayHaveBeenSent, EndLive, LeftWith, EarliestFollower;
    var fp := db.consumers[r].fingerprint;
    CancelLeaderBranches(db, r, reason, now);
    LeaderFlight(db, r);
    LeaderIsQueued(db, r);
    NextFollower(db.consumers, fp);
    NextIsEarliest(db.consumers, fp);
    NotItself(db, r);
    ReplacedIs(db, r, reason, now);
    ReplacedAffects(db, r, fp, NextLeader(db.consumers, fp), reason, now);
  }

  lemma OpenResults(db: Db, r: Id)
    requires Inv(db) && Queued(db.requests, r)
    ensures r !in db.results
  {
    hide ConsumersOk, FlightsOk, QueueOk, OwnersOk, AttemptsOk, OneActive, ReservationsOk, Accounting,
         HoldingsOk, StartsOk, SuccessOk, EpisodesOk, SendersOk, LeadersQueued;
  }

  lemma FlightKnown(db: Db, r: Id)
    requires Inv(db) && r in db.consumers
    ensures db.consumers[r].fingerprint in db.flights
  {
    hide RequestsOk, ConsumersOk, QueueOk, OwnersOk, AttemptsOk, OneActive, ReservationsOk, Accounting,
         HoldingsOk, StartsOk, SuccessOk, EpisodesOk, SendersOk, LeadersQueued;
  }

  lemma SentAffects(db: Db, r: Id, fp: Id, reason: Id, now: Time)
    requires Inv(db) && fp in db.flights && db.flights[fp] == Flight(r, true)
    ensures var after := SentCancelled(db, r, fp, reason, now);
            && LeftWith(WaitingSet(db.consumers, fp), CancelResult(OutUnknown, now, reason), db, after)
            && after.flights == db.flights[fp := Flight(r, false)] && after.queue == db.queue
            && after.attempts == EndLive(db.attempts, r)
  {
    hide Inv, EndLive, Leave, CloseRequests, CloseResults, LeftWith, Lowered, Settle, Waiting;
    UnfinishedWait(db, fp);
    LeftTables(db, WaitingSet(db.consumers, fp), CancelResult(OutUnknown, now, reason), SentCancelled(db, r, fp, reason, now));
  }

  lemma ReplacedAffects(db: Db, r: Id, fp: Id, next: Option<Id>, reason: Id, now: Time)
    requires fp in db.flights && db.flights[fp] == Flight(r, true) && r in db.queue && r in db.consumers && r !in db.results
    requires next.Some? ==> next.value in db.consumers && next.value in db.requests && next.value != r
    ensures var after := Replaced(db, r, fp, next, reason, now);
            && LeftWith({r}, CancelResult(OutCancelled, now, reason), db, after)
            && after.attempts == EndLive(db.attempts, r)
            && after.flights == db.flights[fp := if next.None? then Flight(r, false) else Flight(next.value, true)]
            && (next.Some? ==>
                  && next.value in after.consumers && after.consumers[next.value].role == Leader && next.value in after.queue
                  && after.queue[next.value] == Entry(db.consumers[next.value].domain, db.requests[next.value].task, now, InQueue))
  {
    hide EndLive, CloseRequests, Lowered, Settle;
    var after := Replaced(db, r, fp, next, reason, now);
    LeftTables(db, {r}, CancelResult(OutCancelled, now, reason), after.(consumers := Leave(db.consumers, {r})));
  }

  // ---------------------------------------------------------------- success

  // The last attempt of `r` succeeded, and none of its attempts is unfinished or unknown.
  ghost predicate EndsInSuccess(attempts: Attempts, r: Id) {
    && (exists a :: a in attempts && attempts[a].request == r && attempts[a].state == AttSucceeded
          && forall b :: b in attempts && attempts[b].request == r ==> attempts[b].number <= attempts[a].number)
    && (forall b :: b in attempts && attempts[b].request == r ==>
          attempts[b].state != Reserved && attempts[b].state != Started && attempts[b].state != AttUnknown)
  }

  lemma SoundIs(attempts: Attempts, r: Id)
    ensures SoundSuccess(attempts, r) <==> EndsInSuccess(attempts, r)
  {
  }

  lemma SuccessOwned(db: Db, r: Id)
    requires Inv(db) && r in db.results && db.results[r].kind == OutSucceeded
    ensures r in db.consumers && db.consumers[r].state.Completed?
    ensures SoundSuccess(db.attempts, db.consumers[r].state.owner)
  {
    hide FlightsOk, QueueOk, OwnersOk, AttemptsOk, OneActive, ReservationsOk, Accounting,
         HoldingsOk, StartsOk, EpisodesOk, SendersOk, SoundSuccess;
  }

  /** A success is sound forever: in the state that has it and in every later one, the request that owns the
      result ends in a succeeded attempt, with no unknown and no live attempt. */
  lemma SuccessSoundForever(steps: seq<Step>, i: nat, j: nat, r: Id)
    requires DisciplinedRun(steps) && i <= j <= |steps|
    requires r in At(steps, i).results && At(steps, i).results[r].kind == OutSucceeded
    ensures r in At(steps, i).consumers && At(steps, i).consumers[r].state.Completed?
    ensures EndsInSuccess(At(steps, j).attempts, At(steps, i).consumers[r].state.owner)
  {
    hide EndsInSuccess, Inv, At, SoundSuccess, Matches;
    RunInv(steps, i);
    SuccessOwned(At(steps, i), r);
    ResultsFinal(steps, i, j, r);
    OwnersAgreeForever(steps, i, j, r);
    RunInv(steps, j);
    SuccessOwned(At(steps, j), r);
    SoundIs(At(steps, j).attempts, At(steps, i).consumers[r].state.owner);
  }

  // ---------------------------------------------------------------- fencing

  function TokenOf(op: Op): Option<Token> {
    match op
    case TakeLease(_, _) => None
    case TakeOver(_, _) => None
    case Beat(token, _) => Some(token)
    case GiveUp(token) => Some(token)
    case AdmitRequest(_, _, _, _, token, _) => Some(token)
    case CancelRequest(_, _, token) => Some(token)
    case ClaimNext(_, token) => Some(token)
    case ReserveNext(_, _, token) => Some(token)
    case Acquire(_, _, _, _, _, token) => Some(token)
    case Start(_, token) => Some(token)
    case Finish(_, _, _, _, _, _, token) => Some(token)
    case Discard(_, token) => Some(token)
    case FinalizeRequest(_, _, token) => Some(token)
  }

  // Step `i` is a successful mutation under this token.
  ghost predicate Mutates(steps: seq<Step>, i: nat, token: Token)
    requires i < |steps|
  {
    TokenOf(steps[i].op) == Some(token) && Effect(At(steps, i), steps[i]).Some?
  }

  ghost predicate Holds(lease: Option<LeaseRow>, token: Token) {
    lease.Some? && lease.value.active && lease.value.owner == token.owner && lease.value.generation == token.generation
  }

  /** Whatever a token changes, the stored lease is active and has the token's owner and generation. */
  lemma FencedEffect(db: Db, s: Step)
    requires Effect(db, s).Some? && TokenOf(s.op).Some?
    ensures Holds(db.lease, TokenOf(s.op).value)
  {
    hide Reconcile, JoinFlight, OpenFlight, CancelLeader, Close, Leave, QueuedTasks, NextTask, NextNumber, FirstBlocked, Raised,
         WithStart, Lowered, Settle, Releasable, CoolDown, Deliverable, Deliver, AttemptFault;
    match s.op
    case AdmitRequest(r, task, fp, domain, token, limits) => AdmitGuard(db, r, task, fp, domain, token, s.now, limits);
    case CancelRequest(r, reason, token) => CancelGuard(db, r, reason, token, s.now);
    case Finish(v, a, r, outcome, retryAfter, raw, token) => FinishGuard(db, v, a, r, outcome, retryAfter, raw, token, s.now);
    case _ =>
  }

  lemma Generations(before: Db, after: Db)
    requires Evolves(before, after)
    ensures LeaseKept(before.lease, after.lease)
  {
  }

  /** Successful mutations follow each other in the order of their generations, and one generation has one owner. */
  lemma GenerationsAscend(steps: seq<Step>, i: nat, j: nat, first: Token, second: Token)
    requires DisciplinedRun(steps) && i < j < |steps| && Mutates(steps, i, first) && Mutates(steps, j, second)
    ensures first.generation <= second.generation
    ensures first.generation == second.generation ==> first.owner == second.owner
  {
    hide At, Effect, Evolves;
    FencedEffect(At(steps, i), steps[i]);
    FencedEffect(At(steps, j), steps[j]);
    RunEvolves(steps, i, j);
    Generations(At(steps, i), At(steps, j));
  }

  /** Once a later generation exists, an old token changes nothing any more. */
  lemma OldOwnerPowerless(steps: seq<Step>, i: nat, j: nat, s: Step)
    requires DisciplinedRun(steps) && i <= j <= |steps|
    requires TokenOf(s.op).Some? && TokenOf(s.op).value.generation < GenerationOf(At(steps, i).lease)
    ensures Next(At(steps, j), s) == At(steps, j)
  {
    hide At, Effect, Evolves;
    RunEvolves(steps, i, j);
    Generations(At(steps, i), At(steps, j));
    if Effect(At(steps, j), s).Some? {
      FencedEffect(At(steps, j), s);
    }
  }

  /** Each change of owner takes a strictly later generation; so does every new hold on the lease. */
  lemma NewOwnerNewGeneration(steps: seq<Step>, i: nat, j: nat)
    requires DisciplinedRun(steps) && i <= j <= |steps|
    requires At(steps, i).lease.Some? && At(steps, j).lease.Some? && At(steps, i).lease.value.owner != At(steps, j).lease.value.owner
    ensures At(steps, i).lease.value.generation < At(steps, j).lease.value.generation
  {
    hide At, Evolves;
    RunEvolves(steps, i, j);
    Generations(At(steps, i), At(steps, j));
  }
}
