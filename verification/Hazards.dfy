/** Where the repository's own checks stop: an attempt that recovery leaves behind, and what a second attempt beside it does. */
module Hazards {
  import opened Basics
  import opened Tables
  import opened Transactions
  import opened Invariant
  import opened GateProofs
  import opened DeliveryProofs
  import opened FlightProofs
  import opened ResultProofs
  import opened AttemptProofs
  import opened CancelProofs
  import opened RecoveryProofs
  import opened Evolution
  import opened Runs
  import opened Safety
  import opened Drivers

  /** A reserved attempt whose reservation was recovered from an interrupted owner. */
  ghost predicate Stranded(db: Db, a: Id) {
    && a in db.attempts && db.attempts[a].state == Reserved
    && HasReservation(db.reservations, a) && !HasHoldingReservation(db.reservations, a)
  }

  // ---------------------------------------------------------------- it stays

  ghost predicate StaysReserved(before: Attempts, after: Attempts, a: Id) {
    a in before && a in after && after[a].request == before[a].request && after[a].state == Reserved
  }

  lemma ReservedElsewhere(db: Db, s: Step, a: Id)
    requires Inv(db) && Stranded(db, a) && Effect(db, s).Some?
    requires s.op.TakeLease? || s.op.Beat? || s.op.GiveUp? || s.op.AdmitRequest? || s.op.ClaimNext? || s.op.FinalizeRequest?
    ensures Next(db, s).attempts == db.attempts
  {
    hide Inv, Stranded, AcquireLease, Heartbeat, ReleaseLease, Admit, Claim, Finalize;
    match s.op
    case TakeLease(owner, duration) => AcquireLeaseTotal(db, owner, s.now, duration);
    case Beat(token, duration) => LeaseAttempts(db, token, s.now, duration);
    case GiveUp(token) => LeaseAttempts(db, token, s.now, 0);
    case AdmitRequest(r, task, fp, domain, token, limits) => AdmitAttempts(db, r, task, fp, domain, token, s.now, limits);
    case ClaimNext(domain, token) => ClaimAttempts(db, domain, token, s.now);
    case FinalizeRequest(r, result, token) => FinalizeAttempts(db, r, result, token, s.now);
  }

  lemma LeaseAttempts(db: Db, token: Token, now: Time, duration: nat)
    ensures Heartbeat(db, token, now, duration).Commit? ==> Heartbeat(db, token, now, duration).db.attempts == db.attempts
    ensures ReleaseLease(db, token, now).Commit? ==> ReleaseLease(db, token, now).db.attempts == db.attempts
  {
  }

  lemma AdmitAttempts(db: Db, r: Id, task: Id, fp: Id, domain: Id, token: Token, now: Time, limits: QueuePolicy)
    requires Inv(db) && Admit(db, r, task, fp, domain, token, now, limits).Commit?
    ensures Admit(db, r, task, fp, domain, token, now, limits).db.attempts == db.attempts
  {
    hide Inv, Admit, Fence, JoinFlight, OpenFlight;
    AdmitGuard(db, r, task, fp, domain, token, now, limits);
    AdmitBranches(db, r, task, fp, domain, token, now, limits);
    var added := db.(requests := db.requests[r := Request(task, fp, ReqQueued)]);
    if fp in db.flights && db.flights[fp].active {
      JoinRows(added, r, fp, domain, now);
    } else {
      OpenRows(added, r, task, fp, domain, now, limits);
    }
  }

  lemma ClaimAttempts(db: Db, domain: Id, token: Token, now: Time)
    requires Claim(db, domain, token, now).Commit?
    ensures Claim(db, domain, token, now).db.attempts == db.attempts
  {
  }

  lemma FinalizeAttempts(db: Db, r: Id, result: Result, token: Token, now: Time)
    requires Finalize(db, r, result, token, now).Commit?
    ensures Finalize(db, r, result, token, now).db.attempts == db.attempts
  {
    hide DeliverRequests, DeliverResults, DeliverConsumers, EndFlights, WithdrawLeaders, Receivers, CloseRequests, CloseResults, Deliverable,
         AttemptFault, Fence;
  }

  lemma CancelAttempts(db: Db, q: Id, reason: Id, token: Token, now: Time)
    requires Inv(db) && Cancel(db, q, reason, token, now).Commit?
    ensures var after := Cancel(db, q, reason, token, now).db.attempts; after == db.attempts || after == EndLive(db.attempts, q)
  {
    hide Inv, Fence, CancelLeader, ReplaceLeader, SentCancelled, Replaced, NextLeader, MayHaveBeenSent, EndLive, Lowered, Settle, Leave,
         CloseRequests, CloseResults, EntryTaken;
    CancelGuard(db, q, reason, token, now);
    CancelTotal(db, q, reason, token, now);
    var fp := db.consumers[q].fingerprint;
    if db.consumers[q].role == Leader {
      CancelLeaderBranches(db, q, reason, now);
      if MayHaveBeenSent(db.attempts, q) {
        SentRows(db, q, fp, reason, now);
      } else {
        LeaderIsQueued(db, q);
        NotItself(db, q);
        ReplacedIs(db, q, reason, now);
        ReplaceBranchEntry(db, q, fp);
        ReplacedRows(db, q, fp, NextLeader(db.consumers, fp), reason, now, q);
      }
    }
  }

  lemma EndLiveElsewhere(attempts: Attempts, q: Id, a: Id)
    requires a in attempts && attempts[a].request != q
    ensures a in EndLive(attempts, q) && EndLive(attempts, q)[a] == attempts[a]
  {
  }

  lemma AttemptStep(db: Db, s: Step, a: Id)
    requires Inv(db) && Stranded(db, a) && Effect(db, s).Some? && Disciplined(db, s)
    requires s.op.ReserveNext? || s.op.Acquire? || s.op.Start? || s.op.Discard? || s.op.Finish?
    ensures StaysReserved(db.attempts, Next(db, s).attempts, a)
  {
    hide Inv, HasReservation, HasHoldingReservation;
    match s.op
    case ReserveNext(b, r, token) => ReserveFacts(db, b, r, token, s.now); hide ReserveAttempt;
    case Acquire(v, b, attempt, keys, policy, token) =>
      AcquireFacts(db, v, b, attempt, keys, policy, token, s.now); hide AcquireGates, FirstBlocked, Raised, WithStart, KeySet;
    case Start(b, token) =>
    case Discard(b, token) =>
    case Finish(v, b, r, outcome, retryAfter, raw, token) => FinishedOther(db, s, a); hide FinishGates;
  }

  lemma FinishedOther(db: Db, s: Step, a: Id)
    requires Inv(db) && Stranded(db, a) && s.op.Finish? && Effect(db, s).Some?
    ensures StaysReserved(db.attempts, Next(db, s).attempts, a)
  {
    hide Inv, Effect, Next, Settle, HasReservation, HasHoldingReservation;
    FinishHeld(db, s);
    FinishRows(db, s);
    NewlyHeld(db.reservations, s.op.v);
  }

  lemma FinishHeld(db: Db, s: Step)
    requires s.op.Finish? && Effect(db, s).Some?
    ensures s.op.v in db.reservations && db.reservations[s.op.v].state == Holding
  {
    hide Lowered, Settle, CoolDown, Releasable;
  }

  lemma RecoveredReserved(db: Db, owner: Id, now: Time, duration: nat, a: Id)
    requires Inv(db) && RecoverLease(db, owner, now, duration).Commit? && a in db.attempts && db.attempts[a].state == Reserved
    ensures StaysReserved(db.attempts, RecoverLease(db, owner, now, duration).db.attempts, a)
  {
    hide Inv, RecoverLease, CalmGates, RequeuedOnly;
    RecoverGuard(db, owner, now, duration);
    RecoverTotal(db, owner, now, duration);
  }

  lemma StillReserved(db: Db, s: Step, a: Id)
    requires Inv(db) && Stranded(db, a) && Disciplined(db, s)
    requires !(s.op.CancelRequest? && s.op.r == db.attempts[a].request)
    ensures StaysReserved(db.attempts, Next(db, s).attempts, a)
  {
    hide Inv, HasReservation, HasHoldingReservation, Disciplined;
    if Effect(db, s).Some? {
      hide AcquireLease, RecoverLease, Admit, Cancel, Claim, AcquireGates, FinishGates, Finalize, ReserveAttempt, DiscardAttempt,
           MarkStarted, Heartbeat, ReleaseLease;
      match s.op
      case TakeOver(owner, duration) => RecoveredReserved(db, owner, s.now, duration, a);
      case CancelRequest(q, reason, token) =>
        CancelAttempts(db, q, reason, token, s.now);
        EndLiveElsewhere(db.attempts, q, a);
      case ReserveNext(_, _, _) => AttemptStep(db, s, a);
      case Acquire(_, _, _, _, _, _) => AttemptStep(db, s, a);
      case Start(_, _) => AttemptStep(db, s, a);
      case Discard(_, _) => AttemptStep(db, s, a);
      case Finish(_, _, _, _, _, _, _) => AttemptStep(db, s, a);
      case _ => ReservedElsewhere(db, s, a);
    }
  }

  lemma StillStranded(before: Db, after: Db, a: Id)
    requires Inv(after) && Stranded(before, a) && ReservationsKept(before.reservations, after.reservations)
    requires StaysReserved(before.attempts, after.attempts, a)
    ensures Stranded(after, a)
  {
    hide RequestsOk, ConsumersOk, FlightsOk, QueueOk, OwnersOk, AttemptsOk, OneActive, Accounting,
         HoldingsOk, StartsOk, SuccessOk, EpisodesOk, SendersOk, LeadersQueued;
    var v :| v in before.reservations && before.reservations[v].attempt == a;
    assert v in after.reservations && after.reservations[v].attempt == a;
  }

  lemma EvolvedReservations(before: Db, after: Db)
    requires Evolves(before, after)
    ensures ReservationsKept(before.reservations, after.reservations)
  {
  }

  /** A stranded attempt can be neither acquired, started, finished nor discarded, and its request can neither reserve
      another attempt nor be finalised: only the cancellation of that request ends it. */
  lemma StrandedUntilCancelled(db: Db, s: Step, a: Id)
    requires Inv(db) && Stranded(db, a) && Disciplined(db, s)
    requires !(s.op.CancelRequest? && s.op.r == db.attempts[a].request)
    ensures Stranded(Next(db, s), a) && Next(db, s).attempts[a].request == db.attempts[a].request
    ensures Queued(Next(db, s).requests, db.attempts[a].request)
  {
    hide Inv, Next, Stranded, Disciplined, Evolves;
    StepKeepsInvIff(db, s);
    StepEvolves(db, s);
    EvolvedReservations(db, Next(db, s));
    StillReserved(db, s, a);
    StillStranded(db, Next(db, s), a);
    ReservedIsQueued(Next(db, s), a);
  }

  lemma ReservedIsQueued(db: Db, a: Id)
    requires Inv(db) && a in db.attempts && db.attempts[a].state == Reserved
    ensures Queued(db.requests, db.attempts[a].request)
    ensures var r := db.attempts[a].request; r in db.queue && db.queue[r].state == Dequeued
    ensures var r := db.attempts[a].request; r in db.consumers && db.consumers[r].role == Leader && db.consumers[r].state == Active
  {
    hide RequestsOk, FlightsOk, OwnersOk, OneActive, ReservationsOk, Accounting, HoldingsOk, StartsOk, SuccessOk, EpisodesOk, SendersOk, LeadersQueued;
  }

  // ---------------------------------------------------------------- a second attempt beside it

  /** The calls: acquire a new attempt for the same request, mark it started, cancel the request. */
  ghost function SecondAttempt(db: Db, b: Id, v: Id, attempt: Attempt, keys: Keys, now: Time): Db {
    db.(attempts := db.attempts[b := attempt.(state := Started, rawEligible := false)],
        reservations := db.reservations[v := Reservation(b, attempt.request, attempt.generation, now, Holding)],
        scopes := db.scopes[v := keys],
        gates := Raised(db.gates, KeySet(keys), now), starts := WithStart(db.starts, KeySet(keys), now),
        history := db.history.(started := db.history.started + [b]))
  }

  lemma SecondCommits(db: Db, b: Id, v: Id, attempt: Attempt, keys: Keys, policy: GatePolicy, token: Token, now: Time)
    requires Fence(db.lease, token, now).None? && FirstBlocked(SCOPE_ORDER, db, keys, policy, now).None?
    requires b !in db.attempts && v !in db.reservations && v !in db.scopes && !HasReservation(db.reservations, b)
    requires Queued(db.requests, attempt.request) && attempt.request in db.queue && db.queue[attempt.request].state == Dequeued
    requires attempt.number == NextNumber(db.attempts, attempt.request) && attempt.generation == token.generation
    ensures var first := AcquireGates(db, v, b, attempt, keys, policy, token, now);
            && first.Commit?
            && MarkStarted(first.db, b, token, now) == Commit(SecondAttempt(db, b, v, attempt, keys, now), ())
  {
    hide Fence, FirstBlocked, NextNumber, Raised, WithStart, KeySet, HasReservation;
  }

  lemma RaisedReleasable(gates: Gates, scopes: HeldScopes, v: Id, keys: Keys, now: Time)
    ensures Releasable(Raised(gates, KeySet(keys), now), scopes[v := keys], {v})
  {
    EightScopes();
    assert |keys.Keys| == |keys|;
    var after := Raised(gates, KeySet(keys), now);
    forall s | s in keys
      ensures var k := GateKey(s, keys[s]); k in after && |Holders({v}, scopes[v := keys], k)| <= after[k].active
    {
      var k := GateKey(s, keys[s]);
      InKeySet(keys, k);
      assert Holders({v}, scopes[v := keys], k) <= {v};
      assert Holders({v}, scopes[v := keys], k) == {} || Holders({v}, scopes[v := keys], k) == {v};
    }
  }

  // Of a reserved attempt and a newer started one, cancellation looks only at the first.
  lemma FirstIsOlder(attempts: Attempts, r: Id, a: Id, b: Id, added: Attempt)
    requires a in attempts && attempts[a].request == r && IsActive(attempts[a].state)
    requires forall c :: c in attempts && attempts[c].request == r && IsActive(attempts[c].state) ==> c == a
    requires b !in attempts && added.request == r && added.number == NextNumber(attempts, r) && IsActive(added.state)
    ensures FirstActive(attempts[b := added], r) == Some(a)
  {
    var after := attempts[b := added];
    NumberIsNew(attempts, r);
    hide NextNumber;
    assert ActiveAttempts(after, r) == {a, b};
    var first := First(ActiveAttempts(after, r), Numbers(after));
    assert Before(Numbers(after), first, a);
  }

  lemma OnlyNewHeld(db: Db, r: Id, a: Id, v: Id, reservation: Reservation)
    requires Inv(db) && Stranded(db, a) && db.attempts[a].request == r
    requires v !in db.reservations && reservation.request == r && reservation.state == Holding
    ensures HeldByRequest(db.reservations[v := reservation], r) == {v}
  {
    hide RequestsOk, ConsumersOk, FlightsOk, QueueOk, OwnersOk, AttemptsOk, Accounting,
         HoldingsOk, StartsOk, SuccessOk, EpisodesOk, SendersOk, LeadersQueued;
    assert forall w :: w in db.reservations && db.reservations[w].request == r && db.reservations[w].state == Holding ==>
             db.reservations[w].attempt == a;
  }

  lemma CancelSecond(db: Db, a: Id, b: Id, v: Id, attempt: Attempt, keys: Keys, reason: Id, token: Token, now: Time, later: Time)
    requires Inv(db) && Stranded(db, a) && attempt.request == db.attempts[a].request
    requires b !in db.attempts && v !in db.reservations && attempt.number == NextNumber(db.attempts, attempt.request)
    requires !HasSentAttempt(db.attempts, attempt.request)
    requires Fence(db.lease, token, later).None?
    ensures var tx := Cancel(SecondAttempt(db, b, v, attempt, keys, now), attempt.request, reason, token, later);
            && tx.Commit?
            && attempt.request in tx.db.requests && tx.db.requests[attempt.request].state == ReqCancelled
            && b in tx.db.attempts && tx.db.attempts[b].state == Started && tx.db.attempts[b].request == attempt.request
            && tx.db.attempts[b].generation == attempt.generation
            && (forall c :: c in tx.db.attempts ==> c == b || (c in db.attempts && tx.db.attempts[c].generation == db.attempts[c].generation))
            && tx.db.lease == db.lease
  {
    hide Inv, Fence, Raised, WithStart, KeySet, NextNumber, Releasable, Lowered, Settle, HeldByRequest, FirstActive, NextLeader,
         HasSentAttempt, OnlyLive, Stranded, ReplaceLeader, CancelStartedFlight;
    var r := attempt.request;
    var second := SecondAttempt(db, b, v, attempt, keys, now);
    StrandedFacts(db, a);
    ReservedIsQueued(db, a);
    OnlyOneLive(db, r, a);
    OnlyLiveFacts(db.attempts, r, a);
    FirstIsOlder(db.attempts, r, a, b, attempt.(state := Started, rawEligible := false));
    RaisedReleasable(db.gates, db.scopes, v, keys, now);
    OnlyNewHeld(db, r, a, v, second.reservations[v]);
    SecondNotSent(db.attempts, r, b, attempt.(state := Started, rawEligible := false));
    var freed := ReleaseOccupancy(second, r).db;
    var unreserved := freed.(attempts := WithState(freed.attempts, {a}, AttFailed));
    LeaderGone(db, unreserved, r, reason, later);
  }

  lemma StrandedFacts(db: Db, a: Id)
    requires Stranded(db, a)
    ensures a in db.attempts && db.attempts[a].state == Reserved
  {
  }

  lemma OnlyLiveFacts(attempts: Attempts, r: Id, a: Id)
    requires OnlyLive(attempts, r, a)
    ensures forall c :: c in attempts && attempts[c].request == r && IsActive(attempts[c].state) ==> c == a
  {
  }

  lemma SecondNotSent(attempts: Attempts, r: Id, b: Id, added: Attempt)
    requires !HasSentAttempt(attempts, r) && IsActive(added.state)
    ensures !HasSentAttempt(attempts[b := added], r)
  {
  }

  lemma LeaderGone(db: Db, unreserved: Db, r: Id, reason: Id, now: Time)
    requires Inv(db) && r in db.consumers && db.consumers[r].role == Leader && db.consumers[r].state == Active && r in db.queue
    requires unreserved.requests == db.requests && unreserved.results == db.results && unreserved.consumers == db.consumers
    requires unreserved.queue == db.queue && unreserved.flights == db.flights && unreserved.lease == db.lease
    ensures var tx := ReplaceLeader(unreserved, r, reason, now);
            && tx.Commit? && r in tx.db.requests && tx.db.requests[r].state == ReqCancelled
            && tx.db.attempts == unreserved.attempts && tx.db.lease == db.lease
  {
    hide RequestsOk, ConsumersOk, FlightsOk, QueueOk, OwnersOk, AttemptsOk, OneActive, ReservationsOk, Accounting,
         HoldingsOk, StartsOk, SuccessOk, EpisodesOk, SendersOk, NextLeader, CloseRequests, CloseResults, Leave, LeadersQueued;
    var fp := db.consumers[r].fingerprint;
    LeaderFlight(db, r);
    CancelStatesQueued(db, r);
    UnclosedResult(db.requests, db.results, r);
    SameKeys(db.requests, db.consumers, db.audited);
    NextFollower(db.consumers, fp);
    ReplaceBranchEntry(db, r, fp);
    ClosedState(db.requests, r, OutCancelled);
  }

  lemma ClosedState(requests: Requests, r: Id, kind: ResultKind)
    requires r in requests
    ensures r in CloseRequests(requests, {r}, kind) && CloseRequests(requests, {r}, kind)[r].state == StateOf(kind)
  {
  }

  /** Beside a stranded attempt that is its request's first, the repository accepts a second attempt; once that is started
      and the request cancelled, the request is closed as cancelled while its attempt is still started, and from then
      on every takeover of the lease stops at an audit gap. */
  lemma SecondAttemptBlocksRecovery(db: Db, a: Id, b: Id, v: Id, attempt: Attempt, keys: Keys, policy: GatePolicy,
                                    token: Token, now: Time, reason: Id, later: Time, owner: Id, end: Time, duration: nat)
    requires Inv(db) && Stranded(db, a) && attempt.request == db.attempts[a].request && !HasSentAttempt(db.attempts, attempt.request)
    requires b !in db.attempts && v !in db.reservations && v !in db.scopes
    requires attempt.number == NextNumber(db.attempts, attempt.request) && attempt.generation == token.generation
    requires FirstBlocked(SCOPE_ORDER, db, keys, policy, now).None?
    requires Fence(db.lease, token, now).None? && Fence(db.lease, token, later).None?
    requires db.lease.Some? && db.lease.value.heartbeatAt <= end && db.lease.value.expiresAt <= end
    ensures var acquired := AcquireGates(db, v, b, attempt, keys, policy, token, now);
            && acquired.Commit?
            && var started := MarkStarted(acquired.db, b, token, now);
            && started.Commit?
            && var cancelled := Cancel(started.db, attempt.request, reason, token, later);
            && cancelled.Commit?
            && RecoverLease(cancelled.db, owner, end, duration) == Abort(AuditGap)
  {
    hide Inv, Raised, WithStart, KeySet, NextNumber, HasSentAttempt, FirstBlocked, Stranded, Cancel, AcquireGates, MarkStarted, Reconcile,
         Interrupt, Releasable, HeldUpTo, StartedRequests, BetweenAttempts, SecondAttempt;
    StrandedFacts(db, a);
    ReservedIsQueued(db, a);
    UnknownToReservations(db, b);
    SecondCommits(db, b, v, attempt, keys, policy, token, now);
    CancelSecond(db, a, b, v, attempt, keys, reason, token, now, later);
    var after := Cancel(SecondAttempt(db, b, v, attempt, keys, now), attempt.request, reason, token, later).db;
    assert Gap(after, b);
    AllGenerations(db);
  }

  lemma AllGenerations(db: Db)
    requires Inv(db)
    ensures forall c :: c in db.attempts ==> db.attempts[c].generation <= GenerationOf(db.lease)
  {
    hide RequestsOk, ConsumersOk, FlightsOk, QueueOk, OwnersOk, OneActive, ReservationsOk, Accounting,
         HoldingsOk, StartsOk, SuccessOk, EpisodesOk, SendersOk, LeadersQueued;
  }

  lemma UnknownToReservations(db: Db, b: Id)
    requires Inv(db) && b !in db.attempts
    ensures !HasReservation(db.reservations, b)
  {
    hide RequestsOk, ConsumersOk, FlightsOk, QueueOk, OwnersOk, AttemptsOk, OneActive, Accounting,
         HoldingsOk, StartsOk, SuccessOk, EpisodesOk, SendersOk, LeadersQueued;
  }
}
