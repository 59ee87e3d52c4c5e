/**
One exchange: acquire the gates, mark the attempt started, issue a one-shot permit, send once, and record how it ended,
while other parties go on calling the repository.
*/
module Transport {
  import opened Basics
  import opened Tables
  import opened Transactions
  import opened Invariant
  import opened AttemptProofs
  import opened EndProofs
  import opened CancelProofs
  import opened Runs
  import opened Safety
  import opened Drivers
  import opened Evolution
  import opened Effects
  import opened Interleaving
  import opened Repository
  import opened RepositoryRuns

  // `authority` names who issued a permit; `serial` tells permits apart that carry the same data.
  datatype Permit = Permit(id: Id, authority: Id, serial: nat, attempt: Id, request: Id, generation: nat)

  class PermitAuthority {
    const name: Id
    var active: map<Id, Permit>
    var issued: nat
    ghost var consumed: set<nat>

    // Every active permit is one of those issued, and was never consumed.
    ghost predicate Valid()
      reads this
    {
      && (forall id :: id in active ==> active[id].id == id && active[id].authority == name && active[id].serial < issued && active[id].serial !in consumed)
      && (forall i, j | i in active && j in active :: active[i].serial == active[j].serial ==> i == j)
      && (forall n :: n in consumed ==> n < issued)
    }

    constructor (own: Id)
      ensures Valid() && name == own && active == map[] && consumed == {}
    {
      name, active, issued, consumed := own, map[], 0, {};
    }

    /** A new permit, unless one of the same identifier is still active. */
    method Issue(id: Id, attempt: Id, request: Id, generation: nat) returns (permit: Option<Permit>)
      requires Valid()
      modifies this
      ensures Valid() && consumed == old(consumed)
      ensures permit.Some? <==> id !in old(active)
      ensures permit.Some? ==>
                && permit.value == Permit(id, name, old(issued), attempt, request, generation)
                && active == old(active)[id := permit.value] && permit.value.serial !in consumed
      ensures permit.None? ==> active == old(active) && issued == old(issued)
    {
      if id in active {
        return None;
      }
      permit := Some(Permit(id, name, issued, attempt, request, generation));
      active, issued := active[id := permit.value], issued + 1;
    }

    /** Use a permit up. It is good for this attempt at most once: whatever was consumed before is refused. */
    method Consume(permit: Permit, attempt: Id, request: Id) returns (ok: bool)
      requires Valid()
      modifies this
      ensures Valid() && permit.id !in active
      ensures ok <==> permit.id in old(active) && old(active)[permit.id] == permit && permit.attempt == attempt && permit.request == request
      ensures ok ==> permit.serial !in old(consumed) && consumed == old(consumed) + {permit.serial}
      ensures !ok ==> consumed == old(consumed)
      ensures permit.authority != name || permit.serial in old(consumed) ==> !ok
      ensures forall id :: id != permit.id ==> (id in active <==> id in old(active)) && (id in active ==> active[id] == old(active)[id])
    {
      if permit.id !in active {
        return false;
      }
      var found := active[permit.id];
      active := active - {permit.id};
      ok := permit.authority == name && found == permit && permit.attempt == attempt && permit.request == request;
      if ok {
        consumed := consumed + {permit.serial};
      }
    }
  }

  // How the outside world behaves during one exchange.
  datatype Behaviour = CallbackRaises | InvalidResponse | Responds(status: int, retryAfter: Option<nat>)

  datatype Status = Success | Failure | Unknown

  datatype Exchanged = Interrupted | Ended(status: Status, candidate: bool)

  // How the attempt ends, for how long the provider asks to wait, and whether there is a raw response to keep.
  datatype Verdict = Verdict(outcome: Outcome, retryAfter: Option<nat>, raw: bool, status: Status, candidate: bool)

  function Judge(behaviour: Behaviour): Verdict {
    match behaviour
    case CallbackRaises => Verdict(AttUnknown, None, false, Unknown, false)
    case InvalidResponse => Verdict(AttFailed, None, false, Failure, false)
    case Responds(status, retryAfter) =>
      if status == 429 && retryAfter.Some? then Verdict(AttFailed, retryAfter, true, Failure, true)
      else if !(200 <= status < 300) then Verdict(AttFailed, None, true, Failure, true)
      else Verdict(AttSucceeded, None, true, Success, true)
  }

  const NO_PERMIT := Verdict(AttFailed, None, false, Failure, false)

  /** One exchange, and what the rest of the world does meanwhile: `between` are the calls of other parties after the gates
      were acquired and before the attempt is marked started, `during` those from then until the end is recorded. */
  datatype Exchange = Exchange(v: Id, a: Id, attempt: Attempt, keys: Keys, policy: GatePolicy, token: Token, start: Time, end: Time,
                               permitId: Id, behaviour: Behaviour, between: seq<Step>, during: seq<Step>)

  function Acquiring(x: Exchange): Step {
    Step(Acquire(x.v, x.a, x.attempt, x.keys, x.policy, x.token), x.start)
  }

  function Starting(x: Exchange): Step {
    Step(Start(x.a, x.token), x.start)
  }

  function Finishing(x: Exchange, verdict: Verdict): Step {
    Step(Finish(x.v, x.a, x.attempt.request, verdict.outcome, verdict.retryAfter, verdict.raw, x.token), x.end)
  }

  // ---------------------------------------------------------------- the three moments of an exchange

  ghost predicate Acquires(db: Db, x: Exchange) {
    Effect(db, Acquiring(x)).Some?
  }

  // The tables when the attempt is to be marked started, and when its end is to be recorded.
  ghost function AtStart(db: Db, x: Exchange): Db {
    RunFrom(Next(db, Acquiring(x)), x.between)
  }

  ghost predicate Starts(db: Db, x: Exchange) {
    Acquires(db, x) && Effect(AtStart(db, x), Starting(x)).Some?
  }

  ghost function AtEnd(db: Db, x: Exchange): Db {
    RunFrom(Next(AtStart(db, x), Starting(x)), x.during)
  }

  ghost predicate OthersDisciplined(db: Db, x: Exchange) {
    && (Acquires(db, x) ==> DisciplinedFrom(Next(db, Acquiring(x)), x.between))
    && (Starts(db, x) ==> DisciplinedFrom(Next(AtStart(db, x), Starting(x)), x.during))
  }

  function VerdictOf(x: Exchange, permitted: bool): Verdict {
    if permitted then Judge(x.behaviour) else NO_PERMIT
  }

  // The gates after the reservation with these scopes was given back, with this deadline for its provider.
  ghost predicate CooledBy(before: Db, after: Db, held: map<Scope, Id>, deadline: Option<Time>) {
    forall k :: GateAfter(GateOf(before.gates, k), GateOf(after.gates, k), held, k, deadline)
  }

  /** What a recorded end says: a success is a permitted send answered with a status from 200 to 299, an unknown outcome a
      permitted send that raised, and everything else a failure. There is a raw response exactly if there was an answer, and
      the provider's cooldown is prolonged exactly by a status 429 that asks for it. */
  ghost predicate Reports(x: Exchange, permitted: bool, end: Db, after: Db, result: Exchanged) {
    result.Ended? ==>
      var answered := permitted && x.behaviour.Responds?;
      && x.a in after.attempts && x.v in end.scopes
      && (after.attempts[x.a].state == AttSucceeded <==> answered && 200 <= x.behaviour.status < 300)
      && (after.attempts[x.a].state == AttUnknown <==> permitted && x.behaviour == CallbackRaises)
      && (after.attempts[x.a].state in {AttSucceeded, AttUnknown, AttFailed})
      && (result.status == Success <==> after.attempts[x.a].state == AttSucceeded)
      && (result.status == Unknown <==> after.attempts[x.a].state == AttUnknown)
      && (after.attempts[x.a].rawEligible <==> answered) && (result.candidate <==> answered)
      && CooledBy(end, after, end.scopes[x.v],
                  if answered && x.behaviour.status == 429 && x.behaviour.retryAfter.Some?
                  then Some(x.end + x.behaviour.retryAfter.value) else None)
  }

  lemma EndsReport(x: Exchange, permitted: bool, tables: Db, after: Db, result: Exchanged)
    requires Ends(tables, x, VerdictOf(x, permitted), after, result)
    ensures Reports(x, permitted, tables, after, result)
  {
    hide CooledBy, Fence;
  }

  // The end of a started exchange on `tables`: whether it is recorded, and what is left if it is not.
  ghost predicate Ends(tables: Db, x: Exchange, verdict: Verdict, after: Db, result: Exchanged) {
    && x.v in tables.reservations && x.a in tables.attempts
    && (result.Ended? <==> Fence(tables.lease, x.token, x.end).None? && tables.reservations[x.v].state == Holding)
    && (result.Ended? ==>
          && result == Ended(verdict.status, verdict.candidate)
          && x.a in after.attempts && after.attempts[x.a].state == verdict.outcome && after.attempts[x.a].rawEligible == verdict.raw
          && x.v in after.reservations && after.reservations[x.v].state == Released && x.v in tables.scopes
          && CooledBy(tables, after, tables.scopes[x.v], if verdict.retryAfter.Some? then Some(x.end + verdict.retryAfter.value) else None))
    && (result.Interrupted? ==> after == tables)
    && (tables.attempts[x.a].state == Started || !IsActive(tables.attempts[x.a].state))
    && (tables.attempts[x.a].state == Started <==> tables.reservations[x.v].state == Holding)
  }

  /** What an exchange on the tables `db` answers and leaves behind. */
  ghost predicate Exchanges(db: Db, x: Exchange, permitted: bool, after: Db, result: Exchanged) {
    if !Acquires(db, x) then result == Interrupted && after == db
    else if !Starts(db, x) then result == Interrupted && after == AtStart(db, x)
    else Ends(AtEnd(db, x), x, VerdictOf(x, permitted), after, result) && Reports(x, permitted, AtEnd(db, x), after, result)
  }

  // The attempt is marked started exactly if its gates are still held, it is still unsent, and the fence holds.
  ghost predicate StartsWhen(db: Db, x: Exchange) {
    Acquires(db, x) ==>
      var now := AtStart(db, x);
      && x.v in now.reservations
      && (Starts(db, x) <==> Fence(now.lease, x.token, x.start).None? && now.reservations[x.v].state == Holding
                             && x.a in now.attempts && now.attempts[x.a].state == Reserved)
  }

  // The transport is called once, for an attempt that was marked started and permitted, or not at all.
  ghost predicate Invokes(db: Db, x: Exchange, permitted: bool, before: seq<Id>, sent: seq<Id>) {
    sent == if Starts(db, x) && permitted then before + [x.a] else before
  }

  // No permit outlives its exchange, and the one under which the transport was called had never been used before.
  ghost predicate PermitUsed(active: map<Id, Permit>, consumed: set<nat>, active': map<Id, Permit>, consumed': set<nat>, used: bool) {
    && active' == active
    && if used then exists n :: n !in consumed && consumed' == consumed + {n} else consumed' == consumed
  }

  lemma NoPermitUsed(active: map<Id, Permit>, consumed: set<nat>)
    ensures PermitUsed(active, consumed, active, consumed, false)
  {
  }

  // ---------------------------------------------------------------- what survives the calls of others

  lemma AcquiredAnchored(db: Db, x: Exchange)
    requires Inv(db) && Acquires(db, x)
    ensures Anchored(Next(db, Acquiring(x)), x.v, x.a, x.attempt.request, x.token.generation)
  {
    var s := Acquiring(x);
    hide Inv, AcquireGates, Next, HasHoldingReservation, Fence;
    AcquireLeaseRow(db, s);
    AcquiredReservation(db, s);
    NewlyHeld(Next(db, s).reservations, x.v);
  }

  lemma AcquiredReservation(db: Db, s: Step)
    requires s.op.Acquire? && Effect(db, s).Some?
    ensures s.op.v in Next(db, s).reservations
    ensures Next(db, s).reservations[s.op.v] == Reservation(s.op.a, s.op.attempt.request, s.op.token.generation, s.now, Holding)
    ensures s.op.token.generation == GenerationOf(db.lease)
  {
    AcquireFacts(db, s.op.v, s.op.a, s.op.attempt, s.op.keys, s.op.policy, s.op.token, s.now);
    hide AcquireGates, FirstBlocked, Raised, WithStart, KeySet, NextNumber, HasReservation;
  }

  // Before the attempt is marked started.
  lemma AtStartHolds(db: Db, x: Exchange)
    requires Inv(db) && !SecondLive(db, x.a, x.attempt.request) && Acquires(db, x) && OthersDisciplined(db, x)
    ensures Inv(Next(db, Acquiring(x))) && Inv(AtStart(db, x))
    ensures Anchored(AtStart(db, x), x.v, x.a, x.attempt.request, x.token.generation)
    ensures StartsWhen(db, x)
  {
    hide Inv, Next, SecondLive, DisciplinedFrom, Effect, Disciplined, Acquiring, Starting, HasHoldingReservation, Fence, RunFrom;
    AcquireIsDisciplined(db, x);
    StepKeepsInvIff(db, Acquiring(x));
    AcquiredAnchored(db, x);
    RunFromHolds(Next(db, Acquiring(x)), x.between);
    AnchoredStays(Next(db, Acquiring(x)), x.between, x.v, x.a, x.attempt.request, x.token.generation);
    StartIff(AtStart(db, x), x);
  }

  lemma StartIff(db: Db, x: Exchange)
    requires Inv(db) && Anchored(db, x.v, x.a, x.attempt.request, x.token.generation)
    ensures Effect(db, Starting(x)).Some?
            <==> Fence(db.lease, x.token, x.start).None? && db.reservations[x.v].state == Holding
                 && x.a in db.attempts && db.attempts[x.a].state == Reserved
    ensures Disciplined(db, Starting(x))
  {
    hide Inv, HasHoldingReservation;
    FencedGeneration(db, x);
    if db.reservations[x.v].state == Holding {
      HeldAttempt(db, x.v);
    }
    if HasHoldingReservation(db.reservations, x.a) {
      OnlyReservation(db, x.v, x.a);
    }
    hide Fence;
    if Effect(db, Starting(x)).Some? {
      MarkFacts(db, x.a, x.token, x.start);
    }
  }

  lemma FencedGeneration(db: Db, x: Exchange)
    ensures Fence(db.lease, x.token, x.start).None? ==> x.token.generation == GenerationOf(db.lease)
    ensures Effect(db, Starting(x)).Some? ==> Fence(db.lease, x.token, x.start).None?
  {
  }

  lemma HeldAttempt(db: Db, v: Id)
    requires Inv(db) && v in db.reservations && db.reservations[v].state == Holding
    ensures db.reservations[v].attempt in db.attempts
    ensures db.attempts[db.reservations[v].attempt].generation == db.reservations[v].generation
    ensures IsActive(db.attempts[db.reservations[v].attempt].state)
  {
    hide RequestsOk, ConsumersOk, FlightsOk, QueueOk, OwnersOk, AttemptsOk, OneActive, Accounting, HoldingsOk, StartsOk, SuccessOk,
         EpisodesOk, SendersOk, LeadersQueued;
  }

  lemma OnlyReservation(db: Db, v: Id, a: Id)
    requires Inv(db) && v in db.reservations && db.reservations[v].attempt == a && HasHoldingReservation(db.reservations, a)
    ensures db.reservations[v].state == Holding
  {
    hide RequestsOk, ConsumersOk, FlightsOk, QueueOk, OwnersOk, AttemptsOk, OneActive, Accounting, HoldingsOk, StartsOk, SuccessOk,
         EpisodesOk, SendersOk, LeadersQueued;
  }

  // When the end is to be recorded.
  lemma AtEndHolds(db: Db, x: Exchange)
    requires Inv(db) && !SecondLive(db, x.a, x.attempt.request) && Starts(db, x) && OthersDisciplined(db, x)
    ensures var started := Next(AtStart(db, x), Starting(x));
            Inv(started) && Inv(AtEnd(db, x)) && x.a in started.attempts && started.attempts[x.a].state == Started
    ensures ReservedFor(AtEnd(db, x), x.v, x.a, x.attempt.request, x.token.generation)
    ensures x.a in AtEnd(db, x).attempts && AtEnd(db, x).attempts[x.a].state != Reserved
  {
    hide Inv, Next, SecondLive, DisciplinedFrom, Effect, Disciplined, AtStart, Starting, Evolves;
    AtStartHolds(db, x);
    StartIff(AtStart(db, x), x);
    StepKeepsInvIff(AtStart(db, x), Starting(x));
    StartedRow(AtStart(db, x), x);
    RunFromHolds(Next(AtStart(db, x), Starting(x)), x.during);
    StaysSent(Next(AtStart(db, x), Starting(x)), AtEnd(db, x), x);
  }

  lemma StartedRow(db: Db, x: Exchange)
    requires Effect(db, Starting(x)).Some? && ReservedFor(db, x.v, x.a, x.attempt.request, x.token.generation)
    ensures var after := Next(db, Starting(x));
            && x.a in after.attempts && after.attempts[x.a].state == Started
            && ReservedFor(after, x.v, x.a, x.attempt.request, x.token.generation)
  {
    hide Fence;
  }

  lemma StaysSent(before: Db, after: Db, x: Exchange)
    requires Evolves(before, after) && ReservedFor(before, x.v, x.a, x.attempt.request, x.token.generation)
    requires x.a in before.attempts && before.attempts[x.a].state != Reserved
    ensures ReservedFor(after, x.v, x.a, x.attempt.request, x.token.generation)
    ensures x.a in after.attempts && after.attempts[x.a].state != Reserved
  {
    hide ResultsKept, RequestsKept, ConsumersKept, StartsKept, CooldownsKept, HistoryKept;
  }

  /** At the end the exchange is recorded exactly if the fence holds and the reservation is still held; otherwise nothing is
      written, and the attempt is still started or was ended by somebody else. */
  lemma EndRecorded(db: Db, x: Exchange, verdict: Verdict)
    requires Inv(db) && ReservedFor(db, x.v, x.a, x.attempt.request, x.token.generation)
    requires x.a in db.attempts && db.attempts[x.a].state != Reserved
    ensures var finish := Finishing(x, verdict);
            Ends(db, x, verdict, Next(db, finish), if Effect(db, finish).Some? then Ended(verdict.status, verdict.candidate) else Interrupted)
  {
    var finish := Finishing(x, verdict);
    hide Inv, FinishGates, Fence, GateAfter;
    StartedIffHolding(db, x.v, x.a, x.attempt.request, x.token.generation);
    FinishIff(db, x, verdict);
    if Effect(db, finish).Some? {
      FinishAffects(db, x.v, x.a, x.attempt.request, verdict.outcome, verdict.retryAfter, verdict.raw, x.token, x.end);
    }
  }

  lemma FinishIff(db: Db, x: Exchange, verdict: Verdict)
    requires Inv(db) && ReservedFor(db, x.v, x.a, x.attempt.request, x.token.generation)
    ensures Effect(db, Finishing(x, verdict)).Some?
            <==> Fence(db.lease, x.token, x.end).None? && db.reservations[x.v].state == Holding
  {
    hide Inv, FinishGates, Fence;
    if Effect(db, Finishing(x, verdict)).Some? {
      FinishGuard(db, x.v, x.a, x.attempt.request, verdict.outcome, verdict.retryAfter, verdict.raw, x.token, x.end);
    }
    if Fence(db.lease, x.token, x.end).None? {
      FinishTotal(db, x.v, x.a, x.attempt.request, verdict.outcome, verdict.retryAfter, verdict.raw, x.token, x.end);
    }
  }

  lemma AcquireIsDisciplined(db: Db, x: Exchange)
    requires !SecondLive(db, x.a, x.attempt.request)
    ensures Disciplined(db, Acquiring(x))
  {
    hide Effect;
  }

  lemma FinishIsDisciplined(db: Db, x: Exchange, verdict: Verdict)
    ensures Disciplined(db, Finishing(x, verdict))
  {
    hide Effect;
  }

  lemma NextOfEffect(db: Db, s: Step)
    ensures Effect(db, s).None? ==> Next(db, s) == db
  {
    hide Effect;
  }

  lemma NeverStarted(db: Db, x: Exchange)
    requires !Acquires(db, x)
    ensures StartsWhen(db, x) && !Starts(db, x)
  {
    hide Effect;
  }

  // ---------------------------------------------------------------- with and without others

  /** If nobody else acts, an exchange that acquired its gates ends exactly if the fence still holds at the end. */
  lemma UndisturbedExchange(db: Db, x: Exchange, permitted: bool, after: Db, result: Exchanged)
    requires Inv(db) && !SecondLive(db, x.a, x.attempt.request) && x.between == [] && x.during == []
    requires Exchanges(db, x, permitted, after, result)
    ensures result.Ended? <==> Acquires(db, x) && Fence(db.lease, x.token, x.end).None?
  {
    hide Inv, SecondLive, Effect, Next, Fence, Acquiring, Starting;
    if Acquires(db, x) {
      AtStartHolds(db, x);
      AcquiredThenStarted(db, x);
      AtEndHolds(db, x);
      StartedIffHolding(AtEnd(db, x), x.v, x.a, x.attempt.request, x.token.generation);
    }
  }

  lemma AcquiredThenStarted(db: Db, x: Exchange)
    requires Acquires(db, x)
    ensures var acquired := Next(db, Acquiring(x));
            && Effect(acquired, Starting(x)).Some? && Next(acquired, Starting(x)).lease == db.lease
  {
    var s := Acquiring(x);
    hide AcquireGates, Fence, HasHoldingReservation, Next;
    AcquireRows(db, s);
    AcquireLeaseRow(db, s);
    AcquiredGeneration(db, s);
    MarkCommits(Next(db, s), x);
  }

  lemma AcquiredGeneration(db: Db, s: Step)
    requires s.op.Acquire? && Effect(db, s).Some?
    ensures s.op.a in Next(db, s).attempts && Next(db, s).attempts[s.op.a].generation == s.op.token.generation
    ensures Fence(db.lease, s.op.token, s.now).None?
  {
    AcquireFacts(db, s.op.v, s.op.a, s.op.attempt, s.op.keys, s.op.policy, s.op.token, s.now);
    hide FirstBlocked, Raised, WithStart, KeySet, NextNumber, HasReservation;
  }

  lemma MarkCommits(db: Db, x: Exchange)
    requires Fence(db.lease, x.token, x.start).None? && x.a in db.attempts
    requires db.attempts[x.a].state == Reserved && db.attempts[x.a].generation == x.token.generation
    ensures Effect(db, Starting(x)).Some? && Next(db, Starting(x)).lease == db.lease
  {
    hide Fence;
  }

  /** A fence that holds is not enough: while an attempt is being sent, anyone with a valid lease can cancel its request, and
      then its end is never recorded, although the lease is unchanged. */
  lemma CancelledWhileSending(db: Db, x: Exchange, reason: Id, token: Token, now: Time, verdict: Verdict)
    requires Inv(db) && ReservedFor(db, x.v, x.a, x.attempt.request, x.token.generation)
    requires x.a in db.attempts && db.attempts[x.a].state == Started && Fence(db.lease, token, now).None?
    ensures var cancelled := Cancel(db, x.attempt.request, reason, token, now);
            && cancelled.Commit? && cancelled.db.lease == db.lease && Effect(cancelled.db, Finishing(x, verdict)).None?
  {
    var r := x.attempt.request;
    hide Inv, Cancel, Fence, Evolves, Effect, EndLive, MayHaveBeenSent;
    StartedLeader(db, x.v, x.a, r, x.token.generation);
    CancelTotal(db, r, reason, token, now);
    CancelEvolves(db, r, reason, token, now);
    SentCancellation(db, x.a, r, reason, token, now);
    var after := Cancel(db, r, reason, token, now).db;
    StaysSent(db, after, x);
    StartedIffHolding(after, x.v, x.a, r, x.token.generation);
    FinishIff(after, x, verdict);
  }

  lemma StartedLeader(db: Db, v: Id, a: Id, r: Id, g: nat)
    requires Inv(db) && ReservedFor(db, v, a, r, g) && a in db.attempts && db.attempts[a].state == Started
    ensures db.attempts[a].request == r && r in db.consumers && db.consumers[r].state == Active && db.consumers[r].role == Leader
  {
    hide FlightsOk, OwnersOk, OneActive, Accounting, HoldingsOk, StartsOk, SuccessOk, EpisodesOk, SendersOk, LeadersQueued, RequestsOk;
  }

  lemma SentCancellation(db: Db, a: Id, r: Id, reason: Id, token: Token, now: Time)
    requires Inv(db) && Cancel(db, r, reason, token, now).Commit? && r in db.consumers && db.consumers[r].role == Leader
    requires a in db.attempts && db.attempts[a].state == Started && db.attempts[a].request == r
    ensures var after := Cancel(db, r, reason, token, now).db;
            after.lease == db.lease && a in after.attempts && after.attempts[a].state == AttUnknown
  {
    hide Inv, Fence, CancelLeader, Leave, CloseRequests, CloseResults, Lowered, Settle, HasSentAttempt;
    CancelGuard(db, r, reason, token, now);
    CancelTotal(db, r, reason, token, now);
    CancelLeaderBranches(db, r, reason, now);
  }

  // ---------------------------------------------------------------- the coordinator

  class ProductionTransportCoordinator {
    const repo: ProductionRequestRepository
    const authority: PermitAuthority
    // The attempts the transport callback was invoked for.
    ghost var sent: seq<Id>

    constructor (repository: ProductionRequestRepository, permits: PermitAuthority)
      ensures repo == repository && authority == permits && sent == []
    {
      repo, authority, sent := repository, permits, [];
    }

    // Other parties call the repository.
    method Meanwhile(steps: seq<Step>)
      requires Inv(repo.Now()) && DisciplinedFrom(repo.Now(), steps)
      modifies repo
      ensures Inv(repo.Now()) && repo.Now() == RunFrom(old(repo.Now()), steps)
    {
      hide Inv, Next, Disciplined, Effect;
      ghost var was := repo.Now();
      for i := 0 to |steps|
        invariant repo.Now() == RunFrom(was, steps[..i]) && Inv(repo.Now())
      {
        assert steps[..i + 1][..i] == steps[..i];
        var done := Perform(repo, steps[i]);
      }
      assert steps[..|steps|] == steps;
    }

    // Send under a permit, which is used up first.
    method Send(permit: Permit, a: Id, r: Id, behaviour: Behaviour) returns (verdict: Verdict)
      requires authority.Valid() && permit.id in authority.active && authority.active[permit.id] == permit
      requires permit.attempt == a && permit.request == r
      requires a in repo.attempts && repo.attempts[a].state == Started
      modifies this, authority
      ensures authority.Valid() && sent == old(sent) + [a] && verdict == Judge(behaviour)
      ensures authority.active == old(authority.active) - {permit.id}
      ensures authority.consumed == old(authority.consumed) + {permit.serial} && permit.serial !in old(authority.consumed)
    {
      var ok := authority.Consume(permit, a, r);
      sent := sent + [a];
      verdict := Judge(behaviour);
    }

    // Issue a permit and send under it. Without a permit nothing is sent.
    method Attempted(x: Exchange) returns (verdict: Verdict)
      requires authority.Valid() && x.a in repo.attempts && repo.attempts[x.a].state == Started
      modifies this, authority
      ensures authority.Valid()
      ensures sent == if x.permitId in old(authority.active) then old(sent) else old(sent) + [x.a]
      ensures verdict == VerdictOf(x, x.permitId !in old(authority.active))
      ensures PermitUsed(old(authority.active), old(authority.consumed), authority.active, authority.consumed,
                         x.permitId !in old(authority.active))
    {
      hide Judge;
      var permit := authority.Issue(x.permitId, x.a, x.attempt.request, x.token.generation);
      if permit.None? {
        return NO_PERMIT;
      }
      verdict := Send(permit.value, x.a, x.attempt.request, x.behaviour);
    }

    // Put the attempt on the gates; then others act.
    method Reserve(x: Exchange) returns (done: bool)
      requires Inv(repo.Now()) && !SecondLive(repo.Now(), x.a, x.attempt.request) && OthersDisciplined(repo.Now(), x)
      modifies repo
      ensures Inv(repo.Now())
      ensures done <==> Acquires(old(repo.Now()), x)
      ensures repo.Now() == if done then AtStart(old(repo.Now()), x) else old(repo.Now())
    {
      hide Inv, Effect, Next, Disciplined, SecondLive, Acquiring;
      ghost var was := repo.Now();
      AcquireIsDisciplined(was, x);
      NextOfEffect(was, Acquiring(x));
      done := Perform(repo, Acquiring(x));
      if done {
        Meanwhile(x.between);
      }
    }

    // Mark the attempt started.
    method Mark(x: Exchange) returns (done: bool)
      requires Inv(repo.Now()) && Anchored(repo.Now(), x.v, x.a, x.attempt.request, x.token.generation)
      modifies repo
      ensures Inv(repo.Now())
      ensures done <==> Effect(old(repo.Now()), Starting(x)).Some?
      ensures repo.Now() == Next(old(repo.Now()), Starting(x))
    {
      hide Inv, Effect, Next, Disciplined, Anchored, Starting;
      StartIff(repo.Now(), x);
      done := Perform(repo, Starting(x));
    }

    // Record how the attempt ended and give its gates back.
    method Conclude(x: Exchange, verdict: Verdict) returns (result: Exchanged)
      requires Inv(repo.Now()) && ReservedFor(repo.Now(), x.v, x.a, x.attempt.request, x.token.generation)
      requires x.a in repo.attempts && repo.attempts[x.a].state != Reserved
      modifies repo
      ensures Inv(repo.Now())
      ensures Ends(old(repo.Now()), x, verdict, repo.Now(), result)
    {
      hide Inv, Effect, Next, Finishing, Ends, Disciplined;
      ghost var was := repo.Now();
      FinishIsDisciplined(was, x, verdict);
      EndRecorded(was, x, verdict);
      var done := Perform(repo, Finishing(x, verdict));
      return if done then Ended(verdict.status, verdict.candidate) else Interrupted;
    }

    /** Execute exactly one attempt to its end, whatever disciplined calls others make meanwhile, cancellations, heartbeats and
        takeovers included. The end is recorded exactly if the gates were acquired, the attempt could be marked started, and
        at the end the fence holds and the reservation is still held; the transport is called at most once, and only for an
        attempt durably marked as started. */
    method ExecuteExchange(x: Exchange) returns (result: Exchanged)
      requires Inv(repo.Now()) && !SecondLive(repo.Now(), x.a, x.attempt.request) && authority.Valid()
      requires OthersDisciplined(repo.Now(), x)
      modifies this, repo, authority
      ensures Inv(repo.Now()) && authority.Valid()
      ensures Exchanges(old(repo.Now()), x, x.permitId !in old(authority.active), repo.Now(), result)
      ensures StartsWhen(old(repo.Now()), x)
      ensures Invokes(old(repo.Now()), x, x.permitId !in old(authority.active), old(sent), sent)
      ensures PermitUsed(old(authority.active), old(authority.consumed), authority.active, authority.consumed, sent != old(sent))
    {
      hide Inv, Effect, Next, SecondLive, Fence, Judge, Acquiring, Finishing, Starting, Ends, Anchored, RunFrom, DisciplinedFrom,
           StartsWhen, PermitUsed, Reports;
      ghost var was := repo.Now();
      NoPermitUsed(authority.active, authority.consumed);
      var done := Reserve(x);
      if !done {
        NeverStarted(was, x);
        return Interrupted;
      }
      AtStartHolds(was, x);
      NextOfEffect(repo.Now(), Starting(x));
      done := Mark(x);
      if !done {
        return Interrupted;
      }
      AtEndHolds(was, x);
      var verdict := Attempted(x);
      Meanwhile(x.during);
      ghost var end := repo.Now();
      result := Conclude(x, verdict);
      EndsReport(x, x.permitId !in old(authority.active), end, repo.Now(), result);
    }
  }
}
