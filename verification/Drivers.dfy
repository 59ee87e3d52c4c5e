/**
The workers that drive the repository: claim a request, reserve and gate one attempt after another, mark each
started, send, finish it, and finalise the request. Any number of them run interleaved with admissions,
cancellations and lease changes, and any of them may crash between two calls. They are disciplined.
*/
module Drivers {
  import opened Basics
  import opened Tables
  import opened Transactions
  import opened Invariant
  import opened FlightProofs
  import opened ResultProofs
  import opened AttemptProofs
  import opened EndProofs
  import opened CancelProofs
  import opened RecoveryProofs
  import opened Evolution
  import opened Runs
  import opened Safety

  /** Where a worker is. The owner and generation are those of the lease copy it claimed its request with. */
  datatype Pc =
    | Idle
    | Working(owner: Id, generation: nat, r: Id)
    | Prepared(owner: Id, generation: nat, r: Id, a: Id)
    | Gated(owner: Id, generation: nat, r: Id, a: Id, v: Id)
    | Sending(owner: Id, generation: nat, r: Id, a: Id, v: Id)

  datatype Event = Call(w: Id, s: Step) | Crash(w: Id) | Elsewhere(s: Step)

  /** Everything called on the repository so far, and where each worker is. */
  datatype System = System(calls: seq<Step>, workers: map<Id, Pc>)

  const START := System([], map[])

  function PcOf(sys: System, w: Id): Pc {
    if w in sys.workers then sys.workers[w] else Idle
  }

  // The calls a worker makes at each point of its program.
  predicate Permits(pc: Pc, op: Op) {
    && TokenOf(op).Some?
    && var token := TokenOf(op).value;
    match pc
    case Idle => op.ClaimNext?
    case Working(owner, g, r) =>
      && token.owner == owner && token.generation == g
      && (|| (op.ReserveNext? && op.r == r)
          || (op.Acquire? && op.attempt.request == r)
          || (op.FinalizeRequest? && op.r == r))
    case Prepared(owner, g, r, a) =>
      && token.owner == owner && token.generation == g
      && (|| (op.Acquire? && op.a == a && op.attempt.request == r)
          || (op.Discard? && op.a == a)
          || (op.FinalizeRequest? && op.r == r))
    case Gated(owner, g, r, a, v) =>
      && token.owner == owner && token.generation == g
      && (|| (op.Start? && op.a == a)
          || (op.Discard? && op.a == a)
          || (op.FinalizeRequest? && op.r == r))
    case Sending(owner, g, r, a, v) =>
      && token.owner == owner && token.generation == g
      && (|| (op.Finish? && op.v == v && op.a == a && op.r == r)
          || (op.Discard? && op.a == a)
          || (op.FinalizeRequest? && op.r == r))
  }

  // What other parties call: leases, admissions and cancellations.
  predicate FromElsewhere(op: Op) {
    op.TakeLease? || op.TakeOver? || op.Beat? || op.GiveUp? || op.AdmitRequest? || op.CancelRequest?
  }

  ghost predicate Permitted(sys: System, e: Event) {
    match e
    case Call(w, s) => Permits(PcOf(sys, w), s.op)
    case Crash(_) => true
    case Elsewhere(s) => FromElsewhere(s.op)
  }

  // Where a worker goes when its call commits.
  ghost function Advance(pc: Pc, db: Db, s: Step): Pc
    requires Permits(pc, s.op) && Effect(db, s).Some?
  {
    match s.op
    case ClaimNext(domain, token) =>
      var claimed := Claim(db, domain, token, s.now).value;
      if claimed.None? then Idle else Working(token.owner, token.generation, claimed.value)
    case ReserveNext(a, _, _) => Prepared(pc.owner, pc.generation, pc.r, a)
    case Acquire(v, a, _, _, _, _) => Gated(pc.owner, pc.generation, pc.r, a, v)
    case Start(_, _) => Sending(pc.owner, pc.generation, pc.r, pc.a, pc.v)
    case Finish(_, _, _, _, _, _, _) => Working(pc.owner, pc.generation, pc.r)
    case Discard(_, _) => Working(pc.owner, pc.generation, pc.r)
    case FinalizeRequest(_, _, _) => Idle
  }

  /** One event. A call that aborts leaves the worker where it was, to try again or to crash. */
  ghost function After(sys: System, e: Event): System
    requires Permitted(sys, e)
  {
    var db := Run(sys.calls);
    match e
    case Call(w, s) =>
      System(sys.calls + [s],
             if Effect(db, s).Some? then sys.workers[w := Advance(PcOf(sys, w), db, s)] else sys.workers)
    case Crash(w) => sys.(workers := sys.workers - {w})
    case Elsewhere(s) => sys.(calls := sys.calls + [s])
  }

  // ---------------------------------------------------------------- what a worker may rely on

  // The request left the queue in this generation.
  ghost predicate EntryTaken(queue: Queue, r: Id) {
    r in queue && queue[r].state != InQueue
  }

  ghost predicate NoneLive(attempts: Attempts, r: Id) {
    forall b :: b in attempts && attempts[b].request == r ==> !IsActive(attempts[b].state)
  }

  ghost predicate OnlyLive(attempts: Attempts, r: Id, a: Id) {
    && a in attempts && attempts[a].request == r
    && forall b :: b in attempts && attempts[b].request == r && IsActive(attempts[b].state) ==> b == a
  }

  ghost predicate Relies(db: Db, pc: Pc) {
    match pc
    case Idle => true
    case Working(_, _, r) => EntryTaken(db.queue, r) && NoneLive(db.attempts, r)
    case Prepared(_, _, r, a) => EntryTaken(db.queue, r) && OnlyLive(db.attempts, r, a)
    case Gated(_, _, r, a, v) =>
      && EntryTaken(db.queue, r) && OnlyLive(db.attempts, r, a)
      && (db.attempts[a].state == Reserved ==> HasHoldingReservation(db.reservations, a))
    case Sending(_, _, r, a, v) => EntryTaken(db.queue, r) && OnlyLive(db.attempts, r, a)
  }

  // A worker of an old generation can do no harm; one of the present generation finds what it relies on.
  ghost predicate Ready(db: Db, pc: Pc) {
    pc != Idle ==>
      && pc.generation <= GenerationOf(db.lease)
      && (pc.generation == GenerationOf(db.lease) ==> Relies(db, pc))
  }

  // No two workers of the present generation have the same request.
  ghost predicate Apart(workers: map<Id, Pc>, g: nat) {
    forall w, x | w in workers && x in workers && w != x && InGeneration(workers[w], g) && InGeneration(workers[x], g) ::
      workers[w].r != workers[x].r
  }

  predicate InGeneration(pc: Pc, g: nat) {
    pc != Idle && pc.generation == g
  }

  ghost predicate Safe(sys: System) {
    && DisciplinedRun(sys.calls)
    && Apart(sys.workers, GenerationOf(Run(sys.calls).lease))
    && forall w :: w in sys.workers ==> Ready(Run(sys.calls), sys.workers[w])
  }

  // ---------------------------------------------------------------- steps that do not disturb the worker of `r`

  ghost predicate HoldingsStay(attempts: Attempts, before: Reservations, after: Reservations, r: Id) {
    forall a :: a in attempts && attempts[a].request == r && attempts[a].state == Reserved && HasHoldingReservation(before, a) ==>
      HasHoldingReservation(after, a)
  }

  // No attempt of `r` appears, disappears or comes back to life.
  ghost predicate AttemptsQuiet(before: Attempts, after: Attempts, r: Id) {
    && (forall a :: a in before && before[a].request == r ==> a in after && after[a].request == r)
    && (forall a :: a in after && after[a].request == r ==>
          && a in before && before[a].request == r
          && (IsActive(after[a].state) ==> IsActive(before[a].state))
          && (after[a].state == Reserved ==> before[a].state == Reserved))
  }

  ghost predicate Quiet(before: Db, after: Db, r: Id) {
    && (EntryTaken(before.queue, r) ==> EntryTaken(after.queue, r))
    && AttemptsQuiet(before.attempts, after.attempts, r)
    && HoldingsStay(after.attempts, before.reservations, after.reservations, r)
  }

  lemma QuietRelies(before: Db, after: Db, pc: Pc)
    requires pc != Idle && Quiet(before, after, pc.r) && Relies(before, pc)
    ensures Relies(after, pc)
  {
    hide HasHoldingReservation;
  }

  lemma SameRowsQuiet(before: Db, after: Db, r: Id)
    requires after.attempts == before.attempts && after.reservations == before.reservations
    requires EntryTaken(before.queue, r) ==> EntryTaken(after.queue, r)
    ensures Quiet(before, after, r)
  {
    hide HasHoldingReservation;
  }

  lemma LeaseQuiet(db: Db, s: Step, r: Id)
    requires Inv(db) && Effect(db, s).Some? && (s.op.TakeLease? || s.op.Beat? || s.op.GiveUp?)
    ensures Quiet(db, Next(db, s), r)
  {
    hide Inv, AcquireLease, Quiet, EntryTaken;
    if s.op.TakeLease? {
      AcquireLeaseTotal(db, s.op.owner, s.now, s.op.duration);
    }
    SameRowsQuiet(db, Next(db, s), r);
  }

  lemma AdmitQuiet(db: Db, q: Id, task: Id, fp: Id, domain: Id, token: Token, now: Time, limits: QueuePolicy, r: Id)
    requires Inv(db) && Admit(db, q, task, fp, domain, token, now, limits).Commit?
    ensures Quiet(db, Admit(db, q, task, fp, domain, token, now, limits).db, r)
  {
    hide Inv, Admit, Fence, JoinFlight, OpenFlight, Quiet;
    AdmitGuard(db, q, task, fp, domain, token, now, limits);
    AdmitBranches(db, q, task, fp, domain, token, now, limits);
    var added := db.(requests := db.requests[q := Request(task, fp, ReqQueued)]);
    if fp in db.flights && db.flights[fp].active {
      JoinRows(added, q, fp, domain, now);
    } else {
      OpenRows(added, q, task, fp, domain, now, limits);
    }
    SameRowsQuiet(db, Admit(db, q, task, fp, domain, token, now, limits).db, r);
  }

  lemma JoinRows(db: Db, q: Id, fp: Id, domain: Id, now: Time)
    requires fp in db.flights && JoinFlight(db, q, fp, domain, now).Commit?
    ensures var after := JoinFlight(db, q, fp, domain, now).db;
            after.attempts == db.attempts && after.reservations == db.reservations && after.queue == db.queue
  {
  }

  lemma OpenRows(db: Db, q: Id, task: Id, fp: Id, domain: Id, now: Time, limits: QueuePolicy)
    requires OpenFlight(db, q, task, fp, domain, now, limits).Commit?
    ensures var after := OpenFlight(db, q, task, fp, domain, now, limits).db;
            after.attempts == db.attempts && after.reservations == db.reservations
            && forall r :: EntryTaken(db.queue, r) ==> EntryTaken(after.queue, r)
  {
    hide QueueFull, CloseRequests, CloseResults, OpenFlight;
    if QueueFull(db.queue, domain, task, limits) {
      RejectedTables(db, q, task, fp, domain, now, limits);
    } else {
      OpenedTables(db, q, task, fp, domain, now, limits);
    }
  }

  lemma EndLiveQuiet(attempts: Attempts, q: Id, r: Id)
    ensures AttemptsQuiet(attempts, EndLive(attempts, q), r)
  {
  }

  lemma FreedHoldings(db: Db, g: nat, q: Id, r: Id)
    requires ReservationsOk(db.reservations, db.scopes, db.attempts, g)
    ensures HoldingsStay(EndLive(db.attempts, q), db.reservations, Settle(db.reservations, HeldByRequest(db.reservations, q), Recovered), r)
  {
    hide HasHoldingReservation, HasReleasedReservation, Settle;
    forall a | a in EndLive(db.attempts, q) && EndLive(db.attempts, q)[a].request == r && EndLive(db.attempts, q)[a].state == Reserved
               && HasHoldingReservation(db.reservations, a)
      ensures HasHoldingReservation(Settle(db.reservations, HeldByRequest(db.reservations, q), Recovered), a)
    {
      SettledOthers(db.reservations, HeldByRequest(db.reservations, q), Recovered, a);
    }
  }

  lemma FreedQuiet(db: Db, q: Id, r: Id, after: Db)
    requires Inv(db) && after.attempts == Freed(db, q).attempts && after.reservations == Freed(db, q).reservations
    requires EntryTaken(db.queue, r) ==> EntryTaken(after.queue, r)
    ensures Quiet(db, after, r)
  {
    hide RequestsOk, ConsumersOk, FlightsOk, QueueOk, OwnersOk, AttemptsOk, OneActive, ReservationsOk, Accounting,
         HoldingsOk, StartsOk, SuccessOk, EpisodesOk, SendersOk, LeadersQueued, EndLive, Settle, Lowered, HoldingsStay, AttemptsQuiet;
    EndLiveQuiet(db.attempts, q, r);
    FreedHoldings(db, GenerationOf(db.lease), q, r);
  }

  lemma CancelQuiet(db: Db, q: Id, reason: Id, token: Token, now: Time, r: Id)
    requires Inv(db) && Cancel(db, q, reason, token, now).Commit?
    ensures Quiet(db, Cancel(db, q, reason, token, now).db, r)
  {
    hide Inv, Fence, CancelLeader, ReplaceLeader, SentCancelled, Replaced, NextLeader, MayHaveBeenSent, Freed, Leave, Quiet, CloseRequests,
         CloseResults, EntryTaken;
    CancelGuard(db, q, reason, token, now);
    CancelTotal(db, q, reason, token, now);
    var fp := db.consumers[q].fingerprint;
    if db.consumers[q].role == Follower {
      SameRowsQuiet(db, Cancel(db, q, reason, token, now).db, r);
    } else {
      CancelLeaderBranches(db, q, reason, now);
      if MayHaveBeenSent(db.attempts, q) {
        SentRows(db, q, fp, reason, now);
        FreedQuiet(db, q, r, SentCancelled(db, q, fp, reason, now));
      } else {
        LeaderIsQueued(db, q);
        LeaderFlight(db, q);
        NotItself(db, q);
        NextFollower(db.consumers, fp);
        ReplacedIs(db, q, reason, now);
        ReplaceBranchEntry(db, q, fp);
        ReplacedRows(db, q, fp, NextLeader(db.consumers, fp), reason, now, r);
        FreedQuiet(db, q, r, Replaced(db, q, fp, NextLeader(db.consumers, fp), reason, now));
      }
    }
  }

  lemma ReplaceBranchEntry(db: Db, q: Id, fp: Id)
    requires Inv(db)
    ensures NextLeader(db.consumers, fp).Some? ==> NextLeader(db.consumers, fp).value !in db.queue
  {
    hide RequestsOk, ConsumersOk, FlightsOk, QueueOk, OwnersOk, AttemptsOk, OneActive, ReservationsOk, Accounting,
         HoldingsOk, StartsOk, SuccessOk, EpisodesOk, SendersOk, LeadersQueued, NextLeader;
    NextFollower(db.consumers, fp);
    if NextLeader(db.consumers, fp).Some? {
      FollowerUnqueued(db.queue, db.consumers, db.requests, NextLeader(db.consumers, fp).value);
    }
  }

  lemma SentRows(db: Db, q: Id, fp: Id, reason: Id, now: Time)
    requires fp in db.flights
    ensures var after := SentCancelled(db, q, fp, reason, now);
            after.attempts == Freed(db, q).attempts && after.reservations == Freed(db, q).reservations && after.queue == db.queue
  {
    hide Lowered, Settle, EndLive, CloseRequests, CloseResults, Leave, WaitingSet;
  }

  lemma ReplacedRows(db: Db, q: Id, fp: Id, next: Option<Id>, reason: Id, now: Time, r: Id)
    requires fp in db.flights && q in db.queue && (next.Some? ==> next.value in db.consumers && next.value in db.requests)
    requires next.Some? ==> next.value !in db.queue
    ensures var after := Replaced(db, q, fp, next, reason, now);
            && after.attempts == Freed(db, q).attempts && after.reservations == Freed(db, q).reservations
            && (EntryTaken(db.queue, r) ==> EntryTaken(after.queue, r))
  {
    hide Lowered, Settle, EndLive, CloseRequests, CloseResults, Leave;
  }

  lemma FinalizeQuiet(db: Db, q: Id, result: Result, token: Token, now: Time, r: Id)
    requires Finalize(db, q, result, token, now).Commit?
    ensures Quiet(db, Finalize(db, q, result, token, now).db, r)
  {
    hide Quiet, Finalize, EntryTaken;
    FinalizeRows(db, q, result, token, now, r);
    SameRowsQuiet(db, Finalize(db, q, result, token, now).db, r);
  }

  lemma FinalizeRows(db: Db, q: Id, result: Result, token: Token, now: Time, r: Id)
    requires Finalize(db, q, result, token, now).Commit?
    ensures var after := Finalize(db, q, result, token, now).db;
            && after.attempts == db.attempts && after.reservations == db.reservations
            && (EntryTaken(db.queue, r) ==> EntryTaken(after.queue, r))
  {
    hide DeliverRequests, DeliverResults, DeliverConsumers, EndFlights, Receivers, CloseRequests, CloseResults, Deliverable,
         AttemptFault, Fence, Queued;
  }

  lemma ClaimQuiet(db: Db, domain: Id, token: Token, now: Time, r: Id)
    requires Claim(db, domain, token, now).Commit?
    ensures Quiet(db, Claim(db, domain, token, now).db, r)
  {
    if Claim(db, domain, token, now).value.Some? {
      ClaimPicks(db, domain, token, now);
    }
    hide Claim, Quiet;
    SameRowsQuiet(db, Claim(db, domain, token, now).db, r);
  }

  // Steps on one attempt of another request.
  lemma OneAttemptQuiet(before: Db, after: Db, a: Id, r: Id)
    requires after.queue == before.queue
    requires forall b :: b != a ==> (b in before.attempts <==> b in after.attempts)
    requires forall b :: b != a && b in before.attempts ==> after.attempts[b] == before.attempts[b]
    requires a in before.attempts ==> before.attempts[a].request != r
    requires a in after.attempts ==> after.attempts[a].request != r
    requires forall b :: b != a && HasHoldingReservation(before.reservations, b) ==> HasHoldingReservation(after.reservations, b)
    ensures Quiet(before, after, r)
  {
    hide HasHoldingReservation;
  }

  lemma ReserveQuiet(db: Db, a: Id, q: Id, token: Token, now: Time, r: Id)
    requires ReserveAttempt(db, a, q, token, now).Commit? && q != r
    ensures Quiet(db, ReserveAttempt(db, a, q, token, now).db, r)
  {
    ReserveFacts(db, a, q, token, now);
    hide ReserveAttempt, Quiet, HasHoldingReservation;
    OneAttemptQuiet(db, ReserveAttempt(db, a, q, token, now).db, a, r);
  }

  lemma AcquireQuiet(db: Db, s: Step, r: Id)
    requires s.op.Acquire? && Effect(db, s).Some? && s.op.attempt.request != r
    ensures Quiet(db, Next(db, s), r)
  {
    AcquireFacts(db, s.op.v, s.op.a, s.op.attempt, s.op.keys, s.op.policy, s.op.token, s.now);
    hide AcquireGates, FirstBlocked, Raised, WithStart, KeySet, Quiet, HasHoldingReservation;
    forall b {
      MoreReservations(db.reservations, s.op.v, Reservation(s.op.a, s.op.attempt.request, s.op.token.generation, s.now, Holding), b);
    }
    OneAttemptQuiet(db, Next(db, s), s.op.a, r);
  }

  lemma StartQuiet(db: Db, a: Id, token: Token, now: Time, r: Id)
    requires MarkStarted(db, a, token, now).Commit? && a in db.attempts && db.attempts[a].request != r
    ensures Quiet(db, MarkStarted(db, a, token, now).db, r)
  {
    hide HasHoldingReservation, Quiet;
    OneAttemptQuiet(db, MarkStarted(db, a, token, now).db, a, r);
  }

  lemma DiscardQuiet(db: Db, a: Id, token: Token, now: Time, r: Id)
    requires DiscardAttempt(db, a, token, now).Commit? && a in db.attempts && db.attempts[a].request != r
    ensures Quiet(db, DiscardAttempt(db, a, token, now).db, r)
  {
    hide HasHoldingReservation, Quiet;
    OneAttemptQuiet(db, DiscardAttempt(db, a, token, now).db, a, r);
  }

  lemma FinishRows(db: Db, s: Step)
    requires Inv(db) && s.op.Finish? && Effect(db, s).Some?
    ensures var after := Next(db, s);
            && s.op.a in db.attempts && db.attempts[s.op.a].request == s.op.r && IsActive(db.attempts[s.op.a].state)
            && s.op.v in db.reservations && db.reservations[s.op.v].attempt == s.op.a
            && after.queue == db.queue && after.reservations == Settle(db.reservations, {s.op.v}, Released)
            && after.attempts == db.attempts[s.op.a := db.attempts[s.op.a].(state := s.op.outcome, rawEligible := s.op.raw)]
  {
    hide RequestsOk, ConsumersOk, FlightsOk, QueueOk, OwnersOk, AttemptsOk, OneActive, ReservationsOk, Accounting,
         HoldingsOk, StartsOk, SuccessOk, EpisodesOk, SendersOk, LeadersQueued, Settle, Lowered, FinishGates, Fence, CoolDown;
    FinishGuard(db, s.op.v, s.op.a, s.op.r, s.op.outcome, s.op.retryAfter, s.op.raw, s.op.token, s.now);
    FinishBranches(db, s.op.v, s.op.a, s.op.r, s.op.outcome, s.op.retryAfter, s.op.raw, s.op.token, s.now);
    HoldingFacts(db.reservations, db.scopes, db.attempts, GenerationOf(db.lease), s.op.v);
  }

  lemma OneReservation(db: Db, v: Id, b: Id)
    requires Inv(db) && v in db.reservations && db.reservations[v].attempt != b && HasHoldingReservation(db.reservations, b)
    ensures HasHoldingReservation(Settle(db.reservations, {v}, Released), b)
  {
    hide Inv, Settle, HasHoldingReservation, HasReleasedReservation;
    SettledOthers(db.reservations, {v}, Released, b);
  }

  lemma FinishQuiet(db: Db, s: Step, r: Id)
    requires Inv(db) && s.op.Finish? && Effect(db, s).Some? && s.op.r != r
    ensures Quiet(db, Next(db, s), r)
  {
    hide Inv, Effect, Next, Settle, HasHoldingReservation, Quiet;
    FinishRows(db, s);
    forall b | b != s.op.a && HasHoldingReservation(db.reservations, b)
      ensures HasHoldingReservation(Next(db, s).reservations, b)
    {
      OneReservation(db, s.op.v, b);
    }
    OneAttemptQuiet(db, Next(db, s), s.op.a, r);
  }

  // ---------------------------------------------------------------- steps of other parties

  lemma ElsewhereQuiet(db: Db, s: Step, r: Id)
    requires Inv(db) && FromElsewhere(s.op) && !s.op.TakeOver?
    ensures Quiet(db, Next(db, s), r)
  {
    if Effect(db, s).Some? {
      hide Inv, AcquireLease, Heartbeat, ReleaseLease, Admit, Cancel, Quiet;
      match s.op
      case AdmitRequest(q, task, fp, domain, token, limits) => AdmitQuiet(db, q, task, fp, domain, token, s.now, limits, r);
      case CancelRequest(q, reason, token) => CancelQuiet(db, q, reason, token, s.now, r);
      case _ => LeaseQuiet(db, s, r);
    } else {
      hide Inv, EntryTaken;
      SameRowsQuiet(db, db, r);
    }
  }

  lemma TakeOverGeneration(db: Db, s: Step)
    requires Inv(db) && s.op.TakeOver? && Effect(db, s).Some?
    ensures GenerationOf(Next(db, s).lease) == GenerationOf(db.lease) + 1
  {
    hide Inv, RecoverLease, CalmGates, RequeuedOnly, InterruptAttempts;
    RecoverGuard(db, s.op.owner, s.now, s.op.duration);
    RecoverTotal(db, s.op.owner, s.now, s.op.duration);
  }

  lemma GenerationGrows(db: Db, s: Step)
    requires Inv(db)
    ensures GenerationOf(db.lease) <= GenerationOf(Next(db, s).lease)
  {
    hide Evolves, Inv, Next;
    StepEvolves(db, s);
    Generations(db, Next(db, s));
  }

  lemma ElsewhereReady(db: Db, s: Step, pc: Pc)
    requires Inv(db) && FromElsewhere(s.op) && Ready(db, pc)
    ensures Ready(Next(db, s), pc)
  {
    hide Inv, Effect, Relies, Quiet, Next, FromElsewhere;
    GenerationGrows(db, s);
    if pc != Idle {
      if s.op.TakeOver? {
        if Effect(db, s).Some? {
          TakeOverGeneration(db, s);
        } else {
          Unaffected(db, s);
        }
      } else {
        ElsewhereQuiet(db, s, pc.r);
        if Relies(db, pc) {
          QuietRelies(db, Next(db, s), pc);
        }
      }
    }
  }

  lemma Unaffected(db: Db, s: Step)
    requires Effect(db, s).None?
    ensures Next(db, s) == db
  {
  }

  // ---------------------------------------------------------------- a worker's own step

  lemma ReserveDisciplined(db: Db, pc: Pc, s: Step)
    requires Inv(db) && Permits(pc, s.op) && Relies(db, pc) && s.op.ReserveNext? && Effect(db, s).Some?
    ensures Disciplined(db, s)
  {
    hide Inv, ReserveAttempt;
    ReserveFacts(db, s.op.a, s.op.r, s.op.token, s.now);
    TakenAndQueued(db, s.op.r);
  }

  lemma AcquireDisciplined(db: Db, pc: Pc, s: Step)
    requires Permits(pc, s.op) && Relies(db, pc) && s.op.Acquire?
    ensures Disciplined(db, s)
  {
    hide Effect;
  }

  lemma StartDisciplined(db: Db, pc: Pc, s: Step)
    requires Permits(pc, s.op) && Relies(db, pc) && s.op.Start? && Effect(db, s).Some?
    ensures Disciplined(db, s)
  {
    MarkFacts(db, s.op.a, s.op.token, s.now);
    hide MarkStarted, HasHoldingReservation;
  }

  // The worker's call is disciplined.
  lemma CallDisciplined(db: Db, pc: Pc, s: Step)
    requires Inv(db) && Permits(pc, s.op) && Ready(db, pc)
    ensures Disciplined(db, s)
  {
    hide Inv, Effect, Permits, Relies, SecondLive, HasHoldingReservation;
    if Effect(db, s).Some? {
      HasToken(pc, s.op);
      FencedEffect(db, s);
      RelyingNow(db, pc, s);
      match s.op
      case ReserveNext(_, _, _) => ReserveDisciplined(db, pc, s);
      case Acquire(_, _, _, _, _, _) => AcquireDisciplined(db, pc, s);
      case Start(_, _) => StartDisciplined(db, pc, s);
      case _ =>
    }
  }

  lemma TakenAndQueued(db: Db, r: Id)
    requires Inv(db) && Queued(db.requests, r) && EntryTaken(db.queue, r)
    ensures db.queue[r].state == Dequeued
  {
    hide RequestsOk, FlightsOk, OwnersOk, AttemptsOk, OneActive, ReservationsOk, Accounting,
         HoldingsOk, StartsOk, SuccessOk, EpisodesOk, SendersOk, LeadersQueued;
  }

  // At most one attempt of a request is live.
  lemma OnlyOneLive(db: Db, r: Id, a: Id)
    requires Inv(db) && a in db.attempts && db.attempts[a].request == r && IsActive(db.attempts[a].state)
    ensures OnlyLive(db.attempts, r, a)
  {
    hide RequestsOk, ConsumersOk, FlightsOk, QueueOk, OwnersOk, AttemptsOk, ReservationsOk, Accounting,
         HoldingsOk, StartsOk, SuccessOk, EpisodesOk, SendersOk, LeadersQueued;
  }

  lemma ClaimAdvances(db: Db, s: Step)
    requires Inv(db) && s.op.ClaimNext? && Effect(db, s).Some?
    ensures Relies(Next(db, s), Advance(Idle, db, s))
  {
    hide Inv, Claim, Quiet;
    var token := s.op.token;
    ClaimKeepsInv(db, s.op.domain, token, s.now);
    if Claim(db, s.op.domain, token, s.now).value.Some? {
      ClaimPicks(db, s.op.domain, token, s.now);
      var r := Claim(db, s.op.domain, token, s.now).value.value;
      forall b | b in db.attempts
        ensures db.attempts[b].request != r
      {
        assert db.attempts[b].request == r ==> b in AttemptsOf(db.attempts, r);
      }
    }
  }

  lemma AcquireRows(db: Db, s: Step)
    requires s.op.Acquire? && Effect(db, s).Some?
    ensures var after := Next(db, s);
            && after.queue == db.queue && EntryTaken(after.queue, s.op.attempt.request)
            && s.op.v in after.reservations && after.reservations[s.op.v].attempt == s.op.a && after.reservations[s.op.v].state == Holding
            && s.op.a in after.attempts && after.attempts[s.op.a].request == s.op.attempt.request
            && after.attempts[s.op.a].state == Reserved
  {
    AcquireFacts(db, s.op.v, s.op.a, s.op.attempt, s.op.keys, s.op.policy, s.op.token, s.now);
    hide AcquireGates, FirstBlocked, Raised, WithStart, KeySet, HasReservation;
  }

  lemma AcquireAdvances(db: Db, pc: Pc, s: Step)
    requires Inv(db) && Inv(Next(db, s)) && Permits(pc, s.op) && s.op.Acquire? && Effect(db, s).Some?
    ensures Relies(Next(db, s), Advance(pc, db, s))
  {
    hide Inv, Effect, Next, HasHoldingReservation, OnlyLive, EntryTaken;
    AcquireRows(db, s);
    OnlyOneLive(Next(db, s), pc.r, s.op.a);
    NewlyHeld(Next(db, s).reservations, s.op.v);
  }

  lemma NewlyHeld(reservations: Reservations, v: Id)
    requires v in reservations && reservations[v].state == Holding
    ensures HasHoldingReservation(reservations, reservations[v].attempt)
  {
  }

  lemma ReserveRows(db: Db, s: Step)
    requires s.op.ReserveNext? && Effect(db, s).Some?
    ensures var after := Next(db, s);
            && after.queue == db.queue && s.op.a in after.attempts
            && after.attempts[s.op.a].request == s.op.r && after.attempts[s.op.a].state == Reserved
  {
    ReserveFacts(db, s.op.a, s.op.r, s.op.token, s.now);
    hide ReserveAttempt, NextNumber;
  }

  lemma ReserveAdvances(db: Db, pc: Pc, s: Step)
    requires Inv(Next(db, s)) && Permits(pc, s.op) && s.op.ReserveNext? && Effect(db, s).Some? && Relies(db, pc)
    ensures Relies(Next(db, s), Advance(pc, db, s))
  {
    hide Inv, Effect, Next, OnlyLive, EntryTaken, HasHoldingReservation;
    ReserveRows(db, s);
    OnlyOneLive(Next(db, s), s.op.r, s.op.a);
  }

  lemma StartAdvances(db: Db, pc: Pc, s: Step)
    requires Permits(pc, s.op) && s.op.Start? && Effect(db, s).Some? && Relies(db, pc)
    ensures Relies(Next(db, s), Advance(pc, db, s))
  {
    hide HasHoldingReservation;
  }

  lemma FinishAdvances(db: Db, pc: Pc, s: Step)
    requires Inv(db) && Permits(pc, s.op) && s.op.Finish? && Effect(db, s).Some? && Relies(db, pc)
    ensures Relies(Next(db, s), Advance(pc, db, s))
  {
    hide Inv, Effect, Next, Settle, HasHoldingReservation;
    FinishRows(db, s);
  }

  lemma DiscardAdvances(db: Db, pc: Pc, s: Step)
    requires Permits(pc, s.op) && s.op.Discard? && Effect(db, s).Some? && Relies(db, pc)
    ensures Relies(Next(db, s), Advance(pc, db, s))
  {
    hide HasHoldingReservation, HasReservation;
  }

  lemma CallAdvances(db: Db, pc: Pc, s: Step)
    requires Inv(db) && Inv(Next(db, s)) && Permits(pc, s.op) && Effect(db, s).Some? && Relies(db, pc)
    ensures Relies(Next(db, s), Advance(pc, db, s))
  {
    hide Inv, Permits, Effect, Next, Relies;
    PermittedOps(pc, s.op);
    IdleClaims(pc, s.op);
    match s.op
    case ClaimNext(_, _) => ClaimAdvances(db, s);
    case ReserveNext(_, _, _) => ReserveAdvances(db, pc, s);
    case Acquire(_, _, _, _, _, _) => AcquireAdvances(db, pc, s);
    case Start(_, _) => StartAdvances(db, pc, s);
    case Finish(_, _, _, _, _, _, _) => FinishAdvances(db, pc, s);
    case Discard(_, _) => DiscardAdvances(db, pc, s);
    case FinalizeRequest(_, _, _) => IdleRelies(Next(db, s));
  }

  lemma IdleClaims(pc: Pc, op: Op)
    requires Permits(pc, op)
    ensures op.ClaimNext? <==> pc == Idle
  {
  }

  lemma IdleRelies(db: Db)
    ensures Relies(db, Idle)
  {
  }

  // A worker's call does not disturb the worker of another request.
  lemma CallQuiet(db: Db, pc: Pc, s: Step, r: Id)
    requires Inv(db) && Permits(pc, s.op) && Effect(db, s).Some? && Relies(db, pc)
    requires pc != Idle && pc.r != r
    ensures Quiet(db, Next(db, s), r)
  {
    hide Inv, ReserveAttempt, AcquireGates, MarkStarted, FinishGates, DiscardAttempt, Finalize, Quiet, HasHoldingReservation;
    match s.op
    case ReserveNext(a, q, token) => ReserveQuiet(db, a, q, token, s.now, r);
    case Acquire(_, _, _, _, _, _) => AcquireQuiet(db, s, r);
    case Start(a, token) => StartQuiet(db, a, token, s.now, r);
    case Finish(_, _, _, _, _, _, _) => FinishQuiet(db, s, r);
    case Discard(a, token) => DiscardQuiet(db, a, token, s.now, r);
    case FinalizeRequest(q, result, token) => FinalizeQuiet(db, q, result, token, s.now, r);
  }

  lemma ClaimedIsFree(db: Db, s: Step, pc: Pc)
    requires s.op.ClaimNext? && Effect(db, s).Some? && Relies(db, pc) && pc != Idle
    ensures Advance(Idle, db, s) != Idle ==> Advance(Idle, db, s).r != pc.r
  {
    hide Claim;
    if Claim(db, s.op.domain, s.op.token, s.now).value.Some? {
      ClaimPicks(db, s.op.domain, s.op.token, s.now);
    }
  }

  // Seen from any other worker, a call changes nothing it relies on.
  lemma OthersReady(db: Db, pc: Pc, s: Step, other: Pc)
    requires Inv(db) && Permits(pc, s.op) && Effect(db, s).Some? && Ready(db, pc) && Ready(db, other)
    requires Holds(db.lease, TokenOf(s.op).value)
    requires pc != Idle && other != Idle && pc.generation == other.generation ==> pc.r != other.r
    ensures Ready(Next(db, s), other)
  {
    hide Inv, Effect, Relies, Quiet, Next;
    GenerationGrows(db, s);
    if other != Idle && other.generation == GenerationOf(Next(db, s).lease) {
      if pc == Idle {
        CallClaimQuiet(db, s, other.r);
      } else {
        CallQuiet(db, pc, s, other.r);
      }
      QuietRelies(db, Next(db, s), other);
    }
  }

  lemma CallClaimQuiet(db: Db, s: Step, r: Id)
    requires s.op.ClaimNext? && Effect(db, s).Some?
    ensures Quiet(db, Next(db, s), r)
  {
    hide Claim, Quiet;
    ClaimQuiet(db, s.op.domain, s.op.token, s.now, r);
  }

  lemma SameGeneration(db: Db, pc: Pc, s: Step)
    requires Inv(db) && Permits(pc, s.op) && Effect(db, s).Some?
    ensures GenerationOf(Next(db, s).lease) == GenerationOf(db.lease)
  {
    hide Inv, Permits, Claim, ReserveAttempt, AcquireGates, MarkStarted, FinishGates, DiscardAttempt, Finalize;
    PermittedOps(pc, s.op);
    match s.op
    case ClaimNext(domain, token) => ClaimLease(db, domain, token, s.now);
    case ReserveNext(a, r, token) => ReserveFacts(db, a, r, token, s.now);
    case Acquire(v, a, attempt, keys, policy, token) => AcquireLeaseRow(db, s);
    case Start(a, token) => OneAttemptLease(db, a, token, s.now);
    case Finish(_, _, _, _, _, _, _) => FinishLease(db, s);
    case Discard(a, token) => OneAttemptLease(db, a, token, s.now);
    case FinalizeRequest(q, result, token) => FinalizeLease(db, q, result, token, s.now);
  }

  lemma HasToken(pc: Pc, op: Op)
    requires Permits(pc, op)
    ensures TokenOf(op).Some?
  {
  }

  lemma PermittedOps(pc: Pc, op: Op)
    requires Permits(pc, op)
    ensures op.ClaimNext? || op.ReserveNext? || op.Acquire? || op.Start? || op.Finish? || op.Discard? || op.FinalizeRequest?
  {
  }

  lemma ClaimLease(db: Db, domain: Id, token: Token, now: Time)
    requires Claim(db, domain, token, now).Commit?
    ensures Claim(db, domain, token, now).db.lease == db.lease
  {
  }

  lemma AcquireLeaseRow(db: Db, s: Step)
    requires s.op.Acquire? && Effect(db, s).Some?
    ensures Next(db, s).lease == db.lease
  {
    hide AcquireGates, FirstBlocked, Raised, WithStart, KeySet;
    AcquireFacts(db, s.op.v, s.op.a, s.op.attempt, s.op.keys, s.op.policy, s.op.token, s.now);
  }

  lemma OneAttemptLease(db: Db, a: Id, token: Token, now: Time)
    ensures MarkStarted(db, a, token, now).Commit? ==> MarkStarted(db, a, token, now).db.lease == db.lease
    ensures DiscardAttempt(db, a, token, now).Commit? ==> DiscardAttempt(db, a, token, now).db.lease == db.lease
  {
  }

  lemma FinishLease(db: Db, s: Step)
    requires s.op.Finish? && Effect(db, s).Some?
    ensures Next(db, s).lease == db.lease
  {
    hide Lowered, Settle, CoolDown, Releasable;
  }

  lemma FinalizeLease(db: Db, q: Id, result: Result, token: Token, now: Time)
    requires Finalize(db, q, result, token, now).Commit?
    ensures Finalize(db, q, result, token, now).db.lease == db.lease
  {
    hide DeliverRequests, DeliverResults, DeliverConsumers, EndFlights, WithdrawLeaders, Receivers, CloseRequests, CloseResults, Deliverable,
         AttemptFault, Fence;
  }

  // ---------------------------------------------------------------- the theorem

  lemma OneMoreCall(calls: seq<Step>, s: Step)
    requires DisciplinedRun(calls) && Disciplined(Run(calls), s)
    ensures DisciplinedRun(calls + [s]) && Run(calls + [s]) == Next(Run(calls), s)
  {
    var all := calls + [s];
    assert all[..|calls|] == calls;
    forall i | 0 <= i < |all|
      ensures Disciplined(At(all, i), all[i])
    {
      if i < |calls| {
        assert all[..i] == calls[..i];
        assert Disciplined(At(calls, i), calls[i]);
      }
    }
  }

  lemma RunHolds(calls: seq<Step>)
    requires DisciplinedRun(calls)
    ensures Inv(Run(calls))
  {
    hide Inv, Disciplined, Run;
    assert calls[..|calls|] == calls;
    RunInv(calls, |calls|);
  }

  lemma ElsewhereDisciplined(db: Db, s: Step)
    requires FromElsewhere(s.op)
    ensures Disciplined(db, s)
  {
  }

  lemma ElsewhereSafe(sys: System, s: Step)
    requires Safe(sys) && FromElsewhere(s.op)
    ensures Safe(After(sys, Elsewhere(s)))
  {
    hide Inv, Disciplined, Run, Next, Ready, DisciplinedRun, FromElsewhere;
    var db := Run(sys.calls);
    RunHolds(sys.calls);
    ElsewhereDisciplined(db, s);
    OneMoreCall(sys.calls, s);
    GenerationGrows(db, s);
    forall w | w in sys.workers
      ensures Ready(Next(db, s), sys.workers[w])
    {
      ElsewhereReady(db, s, sys.workers[w]);
    }
    LaterApart(sys.workers, db, GenerationOf(Next(db, s).lease));
  }

  lemma LaterApart(workers: map<Id, Pc>, db: Db, g: nat)
    requires Apart(workers, GenerationOf(db.lease)) && GenerationOf(db.lease) <= g
    requires forall w :: w in workers ==> Ready(db, workers[w])
    ensures Apart(workers, g)
  {
    hide Relies;
  }

  lemma IdleReady(db: Db)
    ensures Ready(db, Idle)
  {
  }

  lemma PcReady(sys: System, w: Id)
    requires Safe(sys)
    ensures Ready(Run(sys.calls), PcOf(sys, w))
  {
    hide Ready, Run, DisciplinedRun;
    IdleReady(Run(sys.calls));
  }

  // The worker's own position after its call.
  lemma SelfReady(db: Db, pc: Pc, s: Step)
    requires Inv(db) && Inv(Next(db, s)) && Permits(pc, s.op) && Effect(db, s).Some? && Ready(db, pc)
    requires Holds(db.lease, TokenOf(s.op).value)
    ensures Ready(Next(db, s), Advance(pc, db, s))
    ensures var now := Advance(pc, db, s); now == Idle || (now.generation == GenerationOf(db.lease) && (pc == Idle || (now.r == pc.r && pc.generation == now.generation)))
  {
    hide Inv, Effect, Relies, Next, Claim;
    SameGeneration(db, pc, s);
    RelyingNow(db, pc, s);
    CallAdvances(db, pc, s);
    AdvanceKeeps(pc, db, s);
  }

  lemma RelyingNow(db: Db, pc: Pc, s: Step)
    requires Permits(pc, s.op) && Ready(db, pc) && Holds(db.lease, TokenOf(s.op).value)
    ensures Relies(db, pc)
  {
  }

  lemma AdvanceKeeps(pc: Pc, db: Db, s: Step)
    requires Permits(pc, s.op) && Effect(db, s).Some? && Holds(db.lease, TokenOf(s.op).value)
    ensures var now := Advance(pc, db, s); now == Idle || (now.generation == GenerationOf(db.lease) && (pc == Idle || (now.r == pc.r && pc.generation == now.generation)))
  {
    hide Effect, Claim;
  }

  // Its request stays its own.
  lemma SelfApart(db: Db, workers: map<Id, Pc>, w: Id, s: Step, x: Id)
    requires var pc := if w in workers then workers[w] else Idle;
             Permits(pc, s.op) && Effect(db, s).Some? && Ready(db, pc) && Holds(db.lease, TokenOf(s.op).value)
    requires Apart(workers, GenerationOf(db.lease)) && x in workers && x != w && workers[x] != Idle
    requires workers[x].generation == GenerationOf(db.lease) && Ready(db, workers[x])
    ensures var now := Advance(if w in workers then workers[w] else Idle, db, s);
            now != Idle ==> now.r != workers[x].r
  {
    hide Effect, Claim, Relies;
    var pc := if w in workers then workers[w] else Idle;
    AdvanceKeeps(pc, db, s);
    if pc == Idle {
      ClaimedIsFree(db, s, workers[x]);
    }
  }

  lemma DistinctRequests(sys: System, db: Db, w: Id, x: Id, s: Step)
    requires Apart(sys.workers, GenerationOf(db.lease)) && x in sys.workers && x != w
    requires Permits(PcOf(sys, w), s.op) && Holds(db.lease, TokenOf(s.op).value)
    ensures var pc, other := PcOf(sys, w), sys.workers[x];
            pc != Idle && other != Idle && pc.generation == other.generation ==> pc.r != other.r
  {
  }

  lemma CallSafe(sys: System, w: Id, s: Step)
    requires Safe(sys) && Permits(PcOf(sys, w), s.op)
    ensures Safe(After(sys, Call(w, s)))
  {
    hide Inv, Disciplined, Run, Next, Ready, DisciplinedRun, Permits, Effect, Advance;
    var db, pc := Run(sys.calls), PcOf(sys, w);
    RunHolds(sys.calls);
    PcReady(sys, w);
    CallDisciplined(db, pc, s);
    OneMoreCall(sys.calls, s);
    if Effect(db, s).Some? {
      HasToken(pc, s.op);
      FencedEffect(db, s);
      StepKeepsInvIff(db, s);
      SameGeneration(db, pc, s);
      SelfReady(db, pc, s);
      forall x | x in sys.workers && x != w
        ensures Ready(Next(db, s), sys.workers[x])
      {
        DistinctRequests(sys, db, w, x, s);
        OthersReady(db, pc, s, sys.workers[x]);
      }
      forall x | x in sys.workers && x != w && sys.workers[x] != Idle && sys.workers[x].generation == GenerationOf(db.lease)
        ensures Advance(pc, db, s) != Idle ==> Advance(pc, db, s).r != sys.workers[x].r
      {
        SelfApart(db, sys.workers, w, s, x);
      }
    } else {
      Unaffected(db, s);
    }
  }

  lemma CrashSafe(sys: System, w: Id)
    requires Safe(sys)
    ensures Safe(After(sys, Crash(w)))
  {
    hide Ready, Run, DisciplinedRun;
  }

  /** Every event of the workers keeps the system safe: each call of the repository is disciplined. */
  lemma EventSafe(sys: System, e: Event)
    requires Safe(sys) && Permitted(sys, e)
    ensures Safe(After(sys, e))
  {
    hide Safe, After, Permits, FromElsewhere;
    match e
    case Call(w, s) => CallSafe(sys, w, s);
    case Crash(w) => CrashSafe(sys, w);
    case Elsewhere(s) => ElsewhereSafe(sys, s);
  }

  /** The system after these events. What a worker's program does not permit at that point does not happen. */
  ghost function Execute(events: seq<Event>): System {
    if events == [] then START
    else
      var before := Execute(events[..|events| - 1]);
      var e := events[|events| - 1];
      if Permitted(before, e) then After(before, e) else before
  }

  lemma StartSafe()
    ensures Safe(START)
  {
  }

  /** However many workers run interleaved with admissions, cancellations, lease changes and crashes, the calls they
      make form a disciplined run: everything proved of disciplined runs holds of them. */
  lemma {:induction false} WorkersAreDisciplined(events: seq<Event>)
    ensures Safe(Execute(events)) && DisciplinedRun(Execute(events).calls)
  {
    hide Run, DisciplinedRun, After, Permitted, Safe;
    if events == [] {
      StartSafe();
    } else {
      var before := Execute(events[..|events| - 1]);
      WorkersAreDisciplined(events[..|events| - 1]);
      if Permitted(before, events[|events| - 1]) {
        EventSafe(before, events[|events| - 1]);
      }
    }
    SafeIsDisciplined(Execute(events));
  }

  lemma SafeIsDisciplined(sys: System)
    requires Safe(sys)
    ensures DisciplinedRun(sys.calls)
  {
  }
}
