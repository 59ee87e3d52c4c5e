/**
The request repository as it works: its tables are fields, every public method is one transaction that changes rows one
after the other, and a transaction that fails puts back the tables it found. Each method does what `Transactions` says.
*/
module Repository {
  import opened Basics
  import opened Tables
  import opened Transactions
  import Spec = Transactions
  import opened Invariant
  import opened RecoveryProofs
  import DeliveryProofs
  import opened Evolution
  import opened OneByOne

  datatype Reply<+T> = Done(value: T) | Refused(fault: Fault)

  // The tables as a transaction finds them.
  datatype Saved = Saved(
    requests: Requests, results: Results, attempts: Attempts, lease: Option<LeaseRow>, queue: Queue, cursors: map<Id, Id>,
    gates: Gates, reservations: Reservations, scopes: HeldScopes, starts: Starts, flights: Flights, consumers: Consumers,
    audited: set<Id>)

  function DbOf(saved: Saved, history: History): Db {
    Db(saved.requests, saved.results, saved.attempts, saved.lease, saved.queue, saved.cursors, saved.gates, saved.reservations,
       saved.scopes, saved.starts, saved.flights, saved.consumers, saved.audited, history)
  }

  // A transaction commits what it should, or leaves the tables alone and says why.
  ghost predicate Follows<T>(tx: Tx<T>, before: Db, after: Db, reply: Reply<T>) {
    match tx
    case Commit(db, value) => after == db && reply == Done(value)
    case Abort(fault) => after == before && reply == Refused(fault)
  }

  // Rows refer to rows that exist.
  ghost predicate ForeignKeys(db: Db) {
    && db.consumers.Keys <= db.requests.Keys && db.queue.Keys <= db.requests.Keys && db.results.Keys <= db.requests.Keys
    && (forall r :: r in db.consumers ==> db.consumers[r].fingerprint in db.flights)
    && (forall a :: a in db.attempts ==> db.attempts[a].request in db.requests)
  }

  class ProductionRequestRepository {
    var requests: Requests
    var results: Results
    var attempts: Attempts
    var lease: Option<LeaseRow>
    var queue: Queue
    var cursors: map<Id, Id>
    var gates: Gates
    var reservations: Reservations
    var scopes: HeldScopes
    var starts: Starts
    var flights: Flights
    var consumers: Consumers
    var audited: set<Id>
    ghost var history: History

    ghost function Now(): Db
      reads this
    {
      Db(requests, results, attempts, lease, queue, cursors, gates, reservations, scopes, starts, flights, consumers, audited, history)
    }

    constructor ()
      ensures Now() == EMPTY_DB
    {
      requests, results, attempts, lease, queue, cursors := map[], map[], map[], None, map[], map[];
      gates, reservations, scopes, starts, flights, consumers, audited := map[], map[], map[], map[], map[], map[], {};
      history := EMPTY_DB.history;
    }

    function Save(): Saved
      reads this
    {
      Saved(requests, results, attempts, lease, queue, cursors, gates, reservations, scopes, starts, flights, consumers, audited)
    }

    // Put the tables of requests and of the queue back.
    method RestoreRequests(saved: Saved)
      modifies `requests, `results, `attempts, `queue, `flights, `consumers
      ensures requests == saved.requests
      ensures results == saved.results
      ensures attempts == saved.attempts
      ensures queue == saved.queue
      ensures flights == saved.flights
      ensures consumers == saved.consumers
    {
      requests, results, attempts := saved.requests, saved.results, saved.attempts;
      queue, flights, consumers := saved.queue, saved.flights, saved.consumers;
    }

    // Put the tables of gates, the lease and the audit marks back.
    method RestoreGates(saved: Saved)
      modifies `gates, `reservations, `scopes, `starts, `lease, `cursors, `audited
      ensures gates == saved.gates
      ensures reservations == saved.reservations
      ensures scopes == saved.scopes
      ensures starts == saved.starts
      ensures lease == saved.lease
      ensures cursors == saved.cursors
      ensures audited == saved.audited
    {
      gates, reservations, scopes, starts := saved.gates, saved.reservations, saved.scopes, saved.starts;
      lease, cursors, audited := saved.lease, saved.cursors, saved.audited;
    }

    // A failed transaction leaves no trace.
    method Rollback(saved: Saved, ghost was: Db)
      requires was == DbOf(saved, was.history)
      modifies this
      ensures Now() == was
    {
      RestoreRequests(saved);
      RestoreGates(saved);
      history := was.history;
    }

    // ---------------------------------------------------------------- gates

    // The first scope, in acquisition order, that refuses a start now.
    method CheckGates(keys: Keys, policy: GatePolicy, now: Time) returns (blocked: Option<Fault>)
      ensures blocked == FirstBlocked(SCOPE_ORDER, Now(), keys, policy, now)
    {
      assert SCOPE_ORDER[0..] == SCOPE_ORDER;
      for i := 0 to 8
        invariant FirstBlocked(SCOPE_ORDER, Now(), keys, policy, now) == FirstBlocked(SCOPE_ORDER[i..], Now(), keys, policy, now)
      {
        var scope := SCOPE_ORDER[i];
        EveryScope(scope);
        assert SCOPE_ORDER[i..][1..] == SCOPE_ORDER[i + 1..];
        var k := GateKey(scope, keys[scope]);
        var reason := Blocked(GateOf(gates, k), StartsOf(starts, k), policy[scope], now);
        if reason.Some? {
          return Some(GateBlocked(scope, reason.value));
        }
      }
      return None;
    }

    // Count the reservation on each of its eight gates, and record the start.
    method TakeGates(v: Id, keys: Keys, now: Time)
      modifies `gates, `scopes, `starts
      ensures gates == Raised(old(gates), KeySet(keys), now)
      ensures starts == WithStart(old(starts), KeySet(keys), now)
      ensures scopes == old(scopes)[v := keys]
    {
      NoneRaised(gates, starts, now);
      hide Raised, WithStart, KeySet;
      for i := 0 to 8
        invariant gates == Raised(old(gates), FirstKeys(keys, i), now) && starts == WithStart(old(starts), FirstKeys(keys, i), now)
        invariant scopes == old(scopes)
      {
        var scope := SCOPE_ORDER[i];
        EveryScope(scope);
        NewKey(keys, i);
        var k := GateKey(scope, keys[scope]);
        RaiseOne(old(gates), FirstKeys(keys, i), k, now);
        StartOne(old(starts), FirstKeys(keys, i), k, now);
        gates := gates[k := GateOf(gates, k).(active := GateOf(gates, k).active + 1, lastStarted := Some(now))];
        starts := starts[k := StartsOf(starts, k) + [now]];
      }
      AllKeys(keys);
      scopes := scopes[v := keys];
    }

    // Give back the eight gates of one reservation; fails on a wrong number of scopes or a gate nobody holds.
    method ReleaseScopes(v: Id) returns (ok: bool)
      requires v in scopes
      modifies `gates
      ensures ok <==> Releasable(old(gates), scopes, {v})
      ensures ok ==> gates == Lowered(old(gates), scopes, {v})
    {
      DecrementedIsLowered(gates, scopes, v);
      hide Lowered, Releasable;
      if |scopes[v]| != 8 {
        return false;
      }
      ok := DecrementScopes(scopes[v]);
    }

    method DecrementScopes(held: map<Scope, Id>) returns (ok: bool)
      modifies `gates
      ensures ok <==> EachHeld(old(gates), held, held.Keys)
      ensures ok ==> gates == Decremented(old(gates), HeldKeys(held, held.Keys))
    {
      hide Decremented, HeldKeys, EachHeld;
      var todo := held.Keys;
      ghost var done: set<Scope> := {};
      NothingDecremented(gates, held);
      while todo != {}
        invariant todo !! done && todo + done == held.Keys
        invariant gates == Decremented(old(gates), HeldKeys(held, done)) && EachHeld(old(gates), held, done)
        decreases |todo|
      {
        var s :| s in todo;
        var k := GateKey(s, held[s]);
        OneScopeMore(old(gates), held, done, s);
        if k !in gates || gates[k].active == 0 {
          return false;
        }
        gates := gates[k := gates[k].(active := gates[k].active - 1)];
        todo, done := todo - {s}, done + {s};
      }
      assert done == held.Keys;
      return true;
    }

    // Give back the gates of several reservations, one after the other.
    method ReleaseAll(some: set<Id>, state: ReservationState) returns (ok: bool)
      requires some <= reservations.Keys
      modifies `gates, `reservations
      ensures ok <==> Releasable(old(gates), scopes, some)
      ensures ok ==> gates == Lowered(old(gates), scopes, some) && reservations == Settle(old(reservations), some, state)
    {
      hide Lowered, Releasable, Settle;
      LowerNone(gates, scopes);
      SettleNone(reservations, state);
      var todo := some;
      ghost var done: set<Id> := {};
      while todo != {}
        invariant todo !! done && todo + done == some && reservations.Keys == old(reservations).Keys
        invariant Releasable(old(gates), scopes, done)
        invariant gates == Lowered(old(gates), scopes, done) && reservations == Settle(old(reservations), done, state)
        decreases |todo|
      {
        var v :| v in todo;
        if v !in scopes {
          Unscoped(old(gates), scopes, some, v);
          return false;
        }
        LowerOneMore(old(gates), scopes, done, v);
        var released := ReleaseScopes(v);
        if !released {
          if Releasable(old(gates), scopes, some) {
            ReleasableFewer(old(gates), scopes, done + {v}, some);
          }
          return false;
        }
        SettleOneMore(old(reservations), done, v, state);
        Unsettled(old(reservations), done, v, state);
        reservations := reservations[v := reservations[v].(state := state)];
        todo, done := todo - {v}, done + {v};
      }
      assert done == some;
      return true;
    }

    // The gates of every reservation the request still holds.
    method ReleaseGateOccupancy(r: Id) returns (reply: Reply<()>)
      modifies `gates, `reservations
      ensures match ReleaseOccupancy(old(Now()), r)
              case Commit(db, _) => Now() == db && reply == Done(())
              case Abort(fault) => reply == Refused(fault)
    {
      var held := HeldByRequest(reservations, r);
      var ok := ReleaseAll(held, Recovered);
      return if ok then Done(()) else Refused(GateInconsistent);
    }

    // ---------------------------------------------------------------- the lease

    method HeartbeatLease(token: Token, now: Time, duration: nat) returns (reply: Reply<Token>)
      modifies `lease
      ensures Follows(Spec.Heartbeat(old(Now()), token, now, duration), old(Now()), Now(), reply)
    {
      if now < token.heartbeatAt {
        return Refused(ClockRollback);
      }
      if token.expiresAt <= now {
        return Refused(LeaseExpired);
      }
      if lease.None? || !lease.value.active || lease.value.owner != token.owner || lease.value.generation != token.generation {
        return Refused(StaleLease);
      }
      lease := Some(lease.value.(heartbeatAt := now, expiresAt := now + duration));
      return Done(token.(heartbeatAt := now, expiresAt := now + duration));
    }

    method ReleaseLease(token: Token, now: Time) returns (reply: Reply<()>)
      modifies `lease
      ensures Follows(Spec.ReleaseLease(old(Now()), token, now), old(Now()), Now(), reply)
    {
      if now < token.heartbeatAt {
        return Refused(ClockRollback);
      }
      if token.expiresAt <= now {
        return Refused(LeaseExpired);
      }
      if lease.None? || !lease.value.active || lease.value.owner != token.owner || lease.value.generation != token.generation {
        return Refused(StaleLease);
      }
      lease := Some(lease.value.(active := false));
      return Done(());
    }

    // ---------------------------------------------------------------- the queue

    // The first row in the order of these times and the identifiers.
    method FirstRow(rows: set<Id>, at: map<Id, Time>) returns (row: Id)
      requires rows != {} && rows <= at.Keys
      ensures row == First(rows, at)
    {
      FirstExists(rows, at);
      row :| row in rows && forall y :: y in rows ==> Before(at, row, y);
      OnlyFirst(rows, at, row);
    }

    method ClaimNextQueued(domain: Id, token: Token, now: Time) returns (reply: Reply<Option<Id>>)
      modifies `queue, `cursors
      ensures Follows(Spec.Claim(old(Now()), domain, token, now), old(Now()), Now(), reply)
    {
      var fence := Fence(lease, token, now);
      if fence.Some? {
        return Refused(fence.value);
      }
      var tasks := QueuedTasks(queue, domain);
      if tasks == {} {
        return Done(None);
      }
      var task := ChooseTask(tasks, Lookup(cursors, domain));
      TaskHasEntry(queue, domain, task);
      var row := FirstRow(QueuedOf(queue, domain, task), EnqueueTimes(queue));
      queue := queue[row := queue[row].(state := Dequeued)];
      cursors := cursors[domain := task];
      return Done(Some(row));
    }

    // The least task above the cursor, else the least.
    method ChooseTask(tasks: set<Id>, cursor: Option<Id>) returns (task: Id)
      requires tasks != {}
      ensures task == NextTask(tasks, cursor)
    {
      var order := map x | x in tasks :: 0 as Time;
      var above := set x | x in tasks && (cursor.None? || x > cursor.value);
      if above != {} {
        task := FirstRow(above, order);
        assert task in above && forall x :: x in tasks && (cursor.None? || x > cursor.value) ==> x in above && Before(order, task, x);
      } else {
        task := FirstRow(tasks, order);
        assert forall x :: x in tasks ==> x !in above && Before(order, task, x);
      }
      OnlyNextTask(tasks, cursor, task);
    }

    // ---------------------------------------------------------------- attempts

    // One more than the greatest number of the request's attempts.
    method NextSequence(r: Id) returns (number: nat)
      ensures number == NextNumber(attempts, r)
    {
      var numbers := set a | a in attempts && attempts[a].request == r :: attempts[a].number;
      if numbers == {} {
        return 1;
      }
      GreatestExists(numbers);
      var greatest :| greatest in numbers && forall y :: y in numbers ==> y <= greatest;
      OnlyGreatest(numbers, greatest);
      return greatest + 1;
    }

    method ReserveNextPhysicalAttempt(a: Id, r: Id, token: Token, now: Time) returns (reply: Reply<Attempt>)
      modifies `attempts
      ensures Follows(Spec.ReserveAttempt(old(Now()), a, r, token, now), old(Now()), Now(), reply)
    {
      hide NextNumber;
      var fence := Fence(lease, token, now);
      if fence.Some? {
        return Refused(fence.value);
      }
      if !Queued(requests, r) {
        return Refused(RequestNotActive);
      }
      if HasUnknownAttempt(attempts, r) {
        return Refused(AttemptUnknown);
      }
      if HasActiveAttempt(attempts, r) {
        return Refused(AttemptAlreadyActive);
      }
      var number := NextSequence(r);
      if a in attempts {
        return Refused(DuplicateKey);
      }
      var attempt := Attempt(r, number, token.generation, now, Reserved, false);
      attempts := attempts[a := attempt];
      return Done(attempt);
    }

    method DiscardReservedAttempt(a: Id, token: Token, now: Time) returns (reply: Reply<()>)
      modifies `attempts
      ensures Follows(Spec.DiscardAttempt(old(Now()), a, token, now), old(Now()), Now(), reply)
    {
      var fence := Fence(lease, token, now);
      if fence.Some? {
        return Refused(fence.value);
      }
      if a !in attempts || attempts[a].generation != token.generation || attempts[a].state != Reserved || HasReservation(reservations, a) {
        return Refused(DiscardRejected);
      }
      attempts := attempts - {a};
      return Done(());
    }

    method MarkPhysicalAttemptStarted(a: Id, token: Token, now: Time) returns (reply: Reply<()>)
      modifies `attempts, `history
      ensures Follows(Spec.MarkStarted(old(Now()), a, token, now), old(Now()), Now(), reply)
    {
      var fence := Fence(lease, token, now);
      if fence.Some? {
        return Refused(fence.value);
      }
      if a !in attempts || attempts[a].generation != token.generation || attempts[a].state != Reserved {
        return Refused(TransitionRejected);
      }
      attempts := attempts[a := attempts[a].(state := Started)];
      history := history.(started := history.started + [a]);
      return Done(());
    }

    // Why an attempt may not start now.
    method CheckStart(attempt: Attempt, keys: Keys, policy: GatePolicy, token: Token, now: Time) returns (fault: Option<Fault>)
      ensures fault == StartFault(Now(), attempt, keys, policy, token, now)
    {
      hide FirstBlocked, Fence, Queued;
      if attempt.generation != token.generation {
        return Some(GenerationMismatch);
      }
      fault := Fence(lease, token, now);
      if fault.Some? {
        return;
      }
      if attempt.request !in queue || queue[attempt.request].state != Dequeued {
        return Some(NotDequeued);
      }
      if !Queued(requests, attempt.request) {
        return Some(RequestNotActive);
      }
      fault := CheckGates(keys, policy, now);
    }

    // Insert the attempt, or find it reserved as given.
    method EnterAttempt(a: Id, attempt: Attempt) returns (fault: Option<Fault>)
      modifies `attempts
      ensures fault == EntryFault(old(attempts), a, attempt)
      ensures fault.None? ==> attempts == if a in old(attempts) then old(attempts)
                                          else old(attempts)[a := attempt.(state := Reserved, rawEligible := false)]
      ensures fault.Some? ==> attempts == old(attempts)
    {
      hide NextNumber;
      if a !in attempts {
        var number := NextSequence(attempt.request);
        if attempt.number != number {
          return Some(SequenceRejected);
        }
        attempts := attempts[a := attempt.(state := Reserved, rawEligible := false)];
      } else if attempts[a].state != Reserved || attempts[a].(rawEligible := false) != attempt.(state := Reserved, rawEligible := false) {
        return Some(ReservationMismatch);
      }
      return None;
    }

    // Insert the reservation with its eight scopes.
    method HoldGates(v: Id, reservation: Reservation, keys: Keys, now: Time) returns (ok: bool)
      modifies `reservations, `gates, `scopes, `starts
      ensures ok <==> v !in old(reservations) && v !in old(scopes) && !HasReservation(old(reservations), reservation.attempt)
      ensures ok ==>
                && reservations == old(reservations)[v := reservation] && scopes == old(scopes)[v := keys]
                && gates == Raised(old(gates), KeySet(keys), now) && starts == WithStart(old(starts), KeySet(keys), now)
    {
      hide Raised, WithStart, KeySet;
      if v in reservations || v in scopes || HasReservation(reservations, reservation.attempt) {
        return false;
      }
      reservations := reservations[v := reservation];
      TakeGates(v, keys, now);
      return true;
    }

    // Enter the attempt if it is new, and put it on its gates.
    method EnterAndHold(v: Id, a: Id, attempt: Attempt, keys: Keys, generation: nat, now: Time) returns (fault: Option<Fault>)
      modifies `attempts, `reservations, `gates, `scopes, `starts
      ensures fault == if EntryFault(old(attempts), a, attempt).Some? then EntryFault(old(attempts), a, attempt)
                       else if v in old(reservations) || v in old(scopes) || HasReservation(old(reservations), a) then Some(DuplicateKey)
                       else None
      ensures fault.None? ==>
                && attempts == (if a in old(attempts) then old(attempts)
                                else old(attempts)[a := attempt.(state := Reserved, rawEligible := false)])
                && reservations == old(reservations)[v := Reservation(a, attempt.request, generation, now, Holding)]
                && scopes == old(scopes)[v := keys]
                && gates == Raised(old(gates), KeySet(keys), now) && starts == WithStart(old(starts), KeySet(keys), now)
    {
      hide EntryFault, Raised, WithStart, KeySet, HasReservation;
      fault := EnterAttempt(a, attempt);
      if fault.Some? {
        return;
      }
      var held := HoldGates(v, Reservation(a, attempt.request, generation, now, Holding), keys, now);
      return if held then None else Some(DuplicateKey);
    }

    method AcquireGates(v: Id, a: Id, attempt: Attempt, keys: Keys, policy: GatePolicy, token: Token, now: Time) returns (reply: Reply<()>)
      modifies this
      ensures Follows(Spec.AcquireGates(old(Now()), v, a, attempt, keys, policy, token, now), old(Now()), Now(), reply)
    {
      AcquireInParts(Now(), v, a, attempt, keys, policy, token, now);
      hide StartFault, EntryFault, Raised, WithStart, KeySet, HasReservation, Spec.AcquireGates;
      ghost var was := Now();
      var saved := Save();
      var fault := CheckStart(attempt, keys, policy, token, now);
      if fault.Some? {
        return Refused(fault.value);
      }
      fault := EnterAndHold(v, a, attempt, keys, token.generation, now);
      if fault.Some? {
        Rollback(saved, was);
        return Refused(fault.value);
      }
      return Done(());
    }

    // The attempt gets its outcome, and the provider its cooldown.
    method RecordOutcome(v: Id, a: Id, outcome: Outcome, retryAfter: Option<nat>, rawEligible: bool, now: Time) returns (ok: bool)
      requires v in reservations && v in scopes
      modifies `reservations, `attempts, `gates
      ensures ok <==> retryAfter.None? || Provider in scopes[v]
      ensures ok ==>
                && reservations == old(reservations)[v := old(reservations)[v].(state := Released)]
                && attempts == (if a in old(attempts) && IsActive(old(attempts)[a].state)
                                then old(attempts)[a := old(attempts)[a].(state := outcome, rawEligible := rawEligible)] else old(attempts))
                && gates == if retryAfter.None? then old(gates)
                            else CoolDown(old(gates), GateKey(Provider, scopes[v][Provider]), now + retryAfter.value)
    {
      reservations := reservations[v := reservations[v].(state := Released)];
      if a in attempts && IsActive(attempts[a].state) {
        attempts := attempts[a := attempts[a].(state := outcome, rawEligible := rawEligible)];
      }
      if retryAfter.Some? {
        if Provider !in scopes[v] {
          return false;
        }
        gates := CoolDown(gates, GateKey(Provider, scopes[v][Provider]), now + retryAfter.value);
      }
      return true;
    }

    method FinishGateReservation(v: Id, a: Id, r: Id, outcome: Outcome, retryAfter: Option<nat>, rawEligible: bool, token: Token, now: Time)
      returns (reply: Reply<()>)
      modifies this
      ensures Follows(Spec.FinishGates(old(Now()), v, a, r, outcome, retryAfter, rawEligible, token, now), old(Now()), Now(), reply)
    {
      hide Lowered, Releasable, CoolDown, Fence, Settle;
      ghost var was := Now();
      var saved := Save();
      var fence := Fence(lease, token, now);
      if fence.Some? {
        return Refused(fence.value);
      }
      if v !in reservations || v !in scopes || |scopes[v]| != 8
         || reservations[v].(acquiredAt := 0) != Reservation(a, r, token.generation, 0, Holding) {
        return Refused(StaleReservation);
      }
      var ok := ReleaseScopes(v);
      if ok {
        SettledOne(reservations, v, Released);
        ok := RecordOutcome(v, a, outcome, retryAfter, rawEligible, now);
      }
      if !ok {
        Rollback(saved, was);
        return Refused(GateInconsistent);
      }
      return Done(());
    }

    // ---------------------------------------------------------------- results and flights

    // The foreign keys of the schema hold.
    ghost predicate References()
      reads this
    {
      ForeignKeys(Now())
    }

    // Give a request its one result, if it is still queued and has none.
    method PersistResult(r: Id, result: Result) returns (ok: bool)
      modifies `requests, `results
      ensures ok <==> Queued(old(requests), r) && r !in old(results)
      ensures ok ==> requests == old(requests)[r := old(requests)[r].(state := StateOf(result.kind))] && results == old(results)[r := result]
      ensures !ok ==> requests.Keys == old(requests).Keys && results == old(results)
    {
      if !Queued(requests, r) {
        return false;
      }
      requests := requests[r := requests[r].(state := StateOf(result.kind))];
      if r in results {
        return false;
      }
      results := results[r := result];
      return true;
    }

    // Hand the leader's result to one active consumer of its flight.
    method DeliverTo(r: Id, fp: Id, leader: Id, result: Result) returns (ok: bool)
      requires r in consumers && r in requests
      modifies `requests, `results, `consumers
      ensures ok <==> ReceiverFits(old(Now()), fp, leader, r)
      ensures ok ==>
                && consumers == old(consumers)[r := old(consumers)[r].(state := Completed(leader))]
                && requests == (if r == leader then old(requests)
                                else old(requests)[r := old(requests)[r].(state := StateOf(result.kind))])
                && results == if r == leader then old(results) else old(results)[r := result]
    {
      if requests[r].fingerprint != fp || r !in audited || (consumers[r].role == Leader) != (r == leader) {
        return false;
      }
      if r != leader {
        if AttemptsOf(attempts, r) != {} {
          return false;
        }
        var persisted := PersistResult(r, result);
        if !persisted {
          return false;
        }
      }
      consumers := consumers[r := consumers[r].(state := Completed(leader))];
      return true;
    }

    // All active consumers of the flight, one after the other.
    method DeliverToAll(waiting: set<Id>, fp: Id, leader: Id, result: Result) returns (ok: bool)
      requires waiting <= consumers.Keys && waiting <= requests.Keys && leader in results && results[leader] == result
      modifies `requests, `results, `consumers
      ensures ok <==> forall r :: r in waiting ==> ReceiverFits(old(Now()), fp, leader, r)
      ensures ok ==>
                && consumers == DeliverConsumers(old(consumers), OwnedBy(waiting, leader))
                && requests == DeliverRequests(old(requests), old(results), OwnedBy(waiting, leader))
                && results == DeliverResults(old(results), OwnedBy(waiting, leader))
    {
      hide DeliverConsumers, DeliverRequests, DeliverResults, OwnedBy, ReceiverFits;
      ghost var was := Now();
      ghost var done: set<Id> := {};
      var todo := waiting;
      NobodyYet(requests, results, consumers, leader);
      while todo != {}
        invariant todo !! done && todo + done == waiting && attempts == was.attempts && audited == was.audited
        invariant consumers == DeliverConsumers(was.consumers, OwnedBy(done, leader))
        invariant requests == DeliverRequests(was.requests, was.results, OwnedBy(done, leader))
        invariant results == DeliverResults(was.results, OwnedBy(done, leader))
        invariant forall r :: r in done ==> ReceiverFits(was, fp, leader, r)
        decreases |todo|
      {
        var r :| r in todo;
        NotYetDelivered(was.requests, was.results, was.consumers, done, leader, r);
        FitsAsBefore(was, Now(), fp, leader, r);
        var delivered := DeliverTo(r, fp, leader, result);
        if !delivered {
          return false;
        }
        FitsFacts(was, fp, leader, r);
        DeliverOneMore(was.requests, was.results, was.consumers, done, leader, r);
        todo, done := todo - {r}, done + {r};
      }
      assert done == waiting;
      return true;
    }

    // Deliver one finished leader's result to its flight and end the flight.
    method FinishSingleFlight(leader: Id, result: Result) returns (ok: bool)
      requires References() && leader in results && results[leader] == result
      modifies `requests, `results, `consumers, `flights, `queue
      ensures leader !in old(consumers) ==> ok && Now() == old(Now())
      ensures leader in old(consumers) ==> (ok <==> Finishes(old(Now()), leader))
      ensures leader in old(consumers) && ok ==> Now() == Deliver(old(Now()), {old(consumers)[leader].fingerprint})
    {
      hide DeliverConsumers, DeliverRequests, DeliverResults, OwnedBy, ReceiverFits, WithdrawLeaders, EndFlights, Receivers, Finishes;
      if leader !in consumers {
        return true;
      }
      var fp := consumers[leader].fingerprint;
      FinishesWhen(Now(), leader);
      if consumers[leader].role != Leader || consumers[leader].state != Active || fp !in flights || flights[fp] != Flight(leader, true) {
        return false;
      }
      var waiting := set r | r in consumers && Waiting(consumers, fp, r);
      OneFlightReceivers(consumers, flights, fp, waiting);
      WithdrawOne(queue, waiting, leader);
      ok := DeliverToAll(waiting, fp, leader, result);
      if !ok {
        return;
      }
      flights := flights[fp := flights[fp].(active := false)];
      if leader in queue && queue[leader].state == InQueue {
        queue := queue[leader := queue[leader].(state := Withdrawn)];
      }
    }

    // One active flight: nothing if its leader is unfinished, delivery if it is finished properly.
    method ReconcileFlight(fp: Id) returns (ok: bool)
      requires References() && fp in flights && flights[fp].active
      modifies `requests, `results, `consumers, `flights, `queue
      ensures ok <==> Reconcilable(old(Now()), fp)
      ensures ok ==> Now() == if old(LeaderFinished(Now(), fp)) then Deliver(old(Now()), {fp}) else old(Now())
    {
      hide Deliver, Deliverable, Finishes, AttemptFault;
      ghost var was := Now();
      var leader := flights[fp].leader;
      ReconcilableWhen(was, fp);
      if leader !in consumers || leader !in requests || consumers[leader].role != Leader || consumers[leader].state != Active {
        return false;
      }
      if requests[leader].state == ReqQueued && leader !in results {
        return true;
      }
      if leader !in results || requests[leader].state != StateOf(results[leader].kind)
         || AttemptFault(attempts, leader, results[leader].kind).Some? {
        return false;
      }
      if consumers[leader].fingerprint != fp {
        return false;
      }
      ok := FinishSingleFlight(leader, results[leader]);
    }

    // One more of the active flights, after those already seen.
    method ReconcileNext(ghost was: Db, ghost active: set<Id>, ghost seen: set<Id>, fp: Id) returns (ok: bool)
      requires ForeignKeys(was) && fp in was.flights && was.flights[fp].active && fp in active && fp !in seen
      requires ReconciledSoFar(was, seen, Now())
      modifies `requests, `results, `consumers, `flights, `queue
      ensures ok ==> ReconciledSoFar(was, seen + {fp}, Now())
      ensures !ok ==> !AllReconcilable(was, active)
    {
      hide Deliver, Reconcilable, LeaderFinished, FinishedOf, AllReconcilable, ForeignKeys;
      OneMoreReconciled(was, seen, fp);
      ok := ReconcileFlight(fp);
      if !ok {
        NotAllReconcilable(was, active, fp);
      }
    }

    // All active flights, of one fingerprint or of all, one after the other.
    method ReconcileTerminalFlights(filter: Option<Id>) returns (ok: bool)
      requires References()
      modifies `requests, `results, `consumers, `flights, `queue
      ensures ok <==> Reconcile(old(Now()), filter).Commit?
      ensures ok ==> Now() == Reconcile(old(Now()), filter).db
    {
      hide Reconcilable, Reconcile, AllReconcilable, ForeignKeys, ReconciledSoFar, ActiveFlights;
      ghost var was := Now();
      var active := ActiveFlights(flights, filter);
      EachActive(flights, filter);
      var todo := active;
      NoneReconciledYet(was);
      OneLess(active, active, 0);
      while todo != {}
        invariant todo <= active && ReconciledSoFar(was, active - todo, Now())
        decreases |todo|
      {
        var fp :| fp in todo;
        var reconciled := ReconcileNext(was, active, active - todo, fp);
        if !reconciled {
          ReconcileEnds(was, filter, Now());
          return false;
        }
        OneLess(active, todo, fp);
        todo := todo - {fp};
      }
      OneLess(active, {}, 0);
      ReconcileEnds(was, filter, Now());
      return true;
    }

    method AcquireLease(owner: Id, now: Time, duration: nat) returns (reply: Reply<Token>)
      requires References()
      modifies this
      ensures Follows(Spec.AcquireLease(old(Now()), owner, now, duration), old(Now()), Now(), reply)
    {
      hide Reconcile;
      ghost var was := Now();
      var saved := Save();
      if lease.Some? && lease.value.active {
        return Refused(if now < lease.value.heartbeatAt then ClockRollback
                       else if now < lease.value.expiresAt then LeaseHeld else ReconciliationRequired);
      }
      var generation := if lease.None? then 1 else lease.value.generation + 1;
      lease := Some(LeaseRow(owner, generation, now, now, now + duration, true));
      ReconcileFault(Now(), None);
      var ok := ReconcileTerminalFlights(None);
      if !ok {
        Rollback(saved, was);
        return Refused(FlightInconsistent);
      }
      return Done(Token(owner, generation, now, now + duration));
    }

    // Why this request cannot be finalised with this outcome.
    method CheckFinalization(r: Id, kind: ResultKind, token: Token, now: Time) returns (fault: Option<Fault>)
      ensures fault == FinalFault(Now(), r, kind, token, now)
    {
      hide Fence, AttemptFault;
      fault := Fence(lease, token, now);
      if fault.Some? {
        return;
      }
      if !Queued(requests, r) {
        return Some(RequestNotActive);
      }
      if r in consumers && (consumers[r].role != Leader || consumers[r].state != Active) {
        return Some(LeaderRequired);
      }
      fault := AttemptFault(attempts, r, kind);
    }

    method FinalizeLogicalRequest(r: Id, result: Result, token: Token, now: Time) returns (reply: Reply<()>)
      requires References()
      modifies this
      ensures Follows(Spec.Finalize(old(Now()), r, result, token, now), old(Now()), Now(), reply)
    {
      FinalizeInParts(Now(), r, result, token, now);
      hide Spec.Finalize, Deliver, Finishes, FinalFault;
      ghost var was := Now();
      var saved := Save();
      var fault := CheckFinalization(r, result.kind, token, now);
      if fault.Some? {
        return Refused(fault.value);
      }
      var persisted := PersistResult(r, result);
      if !persisted {
        Rollback(saved, was);
        return Refused(DuplicateKey);
      }
      ClosedOne(was.requests, was.results, r, result);
      var ok := FinishSingleFlight(r, result);
      if !ok {
        Rollback(saved, was);
        return Refused(FlightInconsistent);
      }
      return Done(());
    }

    // ---------------------------------------------------------------- admission

    // Join the active flight as a follower, if it runs in the same rate domain.
    method JoinFlight(r: Id, fp: Id, domain: Id, now: Time) returns (reply: Reply<Admission>)
      requires fp in flights && flights[fp].leader in consumers
      modifies `consumers, `audited, `history
      ensures match Spec.JoinFlight(old(Now()), r, fp, domain, now)
              case Commit(db, value) => Now() == db && reply == Done(value)
              case Abort(fault) => reply == Refused(fault)
    {
      var leader := flights[fp].leader;
      if consumers[leader].domain != domain {
        return Refused(ScopeMismatch);
      }
      consumers := consumers[r := ConsumerRow(fp, Follower, Active, domain, now)];
      audited := audited + {r};
      if leader in history.episode {
        history := history.(episode := history.episode[r := history.episode[leader]]);
      }
      return Done(AsFollower(leader));
    }

    // A new active flight with this request as its leader.
    method LeadFlight(r: Id, fp: Id, domain: Id, now: Time)
      modifies `flights, `consumers, `audited, `history
      ensures flights == old(flights)[fp := Flight(r, true)]
      ensures consumers == old(consumers)[r := ConsumerRow(fp, Leader, Active, domain, now)]
      ensures audited == old(audited) + {r}
      ensures history == History(old(history).started, old(history).episode[r := Episode(old(history).activations, fp)],
                                 old(history).activations + 1)
    {
      flights := flights[fp := Flight(r, true)];
      consumers := consumers[r := ConsumerRow(fp, Leader, Active, domain, now)];
      audited := audited + {r};
      history := History(history.started, history.episode[r := Episode(history.activations, fp)], history.activations + 1);
    }

    // The queue is full: the leader fails at once and its flight ends.
    method RejectLeader(r: Id, fp: Id, now: Time)
      requires Queued(requests, r) && r !in results && r in consumers && fp in flights
      modifies `requests, `results, `flights, `consumers
      ensures var result := Result(OutFailed, now, Some(QUEUE_FULL));
              && requests == CloseRequests(old(requests), {r}, OutFailed) && results == CloseResults(old(results), {r}, result)
      ensures flights == old(flights)[fp := old(flights)[fp].(active := false)]
      ensures consumers == old(consumers)[r := old(consumers)[r].(state := Left)]
    {
      hide CloseRequests, CloseResults;
      ClosedOne(requests, results, r, Result(OutFailed, now, Some(QUEUE_FULL)));
      var persisted := PersistResult(r, Result(OutFailed, now, Some(QUEUE_FULL)));
      flights := flights[fp := flights[fp].(active := false)];
      consumers := consumers[r := consumers[r].(state := Left)];
    }

    // Queue the new leader, or reject it if the queue is full.
    method QueueLeader(r: Id, task: Id, fp: Id, domain: Id, now: Time, limits: QueuePolicy) returns (rejected: bool)
      requires Queued(requests, r) && r !in results && r in consumers && fp in flights
      modifies `queue, `requests, `results, `flights, `consumers
      ensures rejected == QueueFull(old(queue), domain, task, limits)
      ensures queue == old(queue)[r := Entry(domain, task, now, if rejected then Rejected else InQueue)]
      ensures !rejected ==> requests == old(requests) && results == old(results) && flights == old(flights) && consumers == old(consumers)
      ensures rejected ==>
                && requests == CloseRequests(old(requests), {r}, OutFailed)
                && results == CloseResults(old(results), {r}, Result(OutFailed, now, Some(QUEUE_FULL)))
                && flights == old(flights)[fp := old(flights)[fp].(active := false)]
                && consumers == old(consumers)[r := old(consumers)[r].(state := Left)]
    {
      hide QueueFull, CloseRequests, CloseResults, Queued;
      rejected := QueueFull(queue, domain, task, limits);
      queue := queue[r := Entry(domain, task, now, if rejected then Rejected else InQueue)];
      if rejected {
        RejectLeader(r, fp, now);
      }
    }

    // Both, with the rows as they are in the end.
    method LeadAndQueue(r: Id, task: Id, fp: Id, domain: Id, now: Time, limits: QueuePolicy) returns (rejected: bool)
      requires r !in queue && Queued(requests, r) && r !in results
      modifies `flights, `consumers, `audited, `queue, `requests, `results, `history
      ensures rejected == QueueFull(old(queue), domain, task, limits)
      ensures flights == old(flights)[fp := Flight(r, !rejected)]
      ensures consumers == old(consumers)[r := ConsumerRow(fp, Leader, if rejected then Left else Active, domain, now)]
      ensures audited == old(audited) + {r}
      ensures queue == old(queue)[r := Entry(domain, task, now, if rejected then Rejected else InQueue)]
      ensures history == History(old(history).started, old(history).episode[r := Episode(old(history).activations, fp)],
                                 old(history).activations + 1)
      ensures requests == if rejected then CloseRequests(old(requests), {r}, OutFailed) else old(requests)
      ensures results == if rejected then CloseResults(old(results), {r}, Result(OutFailed, now, Some(QUEUE_FULL))) else old(results)
    {
      hide QueueFull, CloseRequests, CloseResults, Queued;
      LeadFlight(r, fp, domain, now);
      rejected := QueueLeader(r, task, fp, domain, now, limits);
    }

    // Open a flight with this request as its leader, and queue it unless the queue is full.
    method OpenFlight(r: Id, task: Id, fp: Id, domain: Id, now: Time, limits: QueuePolicy) returns (reply: Reply<Admission>)
      requires r !in queue && Queued(requests, r) && r !in results
      modifies `flights, `consumers, `audited, `queue, `requests, `results, `history
      ensures reply.Done? && Spec.OpenFlight(old(Now()), r, task, fp, domain, now, limits) == Commit(Now(), reply.value)
    {
      hide QueueFull, CloseRequests, CloseResults, Spec.OpenFlight, Queued;
      ghost var was := Now();
      var rejected := LeadAndQueue(r, task, fp, domain, now, limits);
      OpenTables(was, Now(), r, task, fp, domain, now, limits, rejected);
      return Done(if rejected then QueueRejected else AsLeader);
    }

    // Follow the active flight of this fingerprint, or open a new one.
    method EnterFlight(r: Id, task: Id, fp: Id, domain: Id, now: Time, limits: QueuePolicy) returns (reply: Reply<Admission>)
      requires r !in queue && Queued(requests, r) && r !in results
      requires fp in flights && flights[fp].active ==> flights[fp].leader in consumers
      modifies `flights, `consumers, `audited, `queue, `requests, `results, `history
      ensures var tx := if fp in old(flights) && old(flights)[fp].active then Spec.JoinFlight(old(Now()), r, fp, domain, now)
                        else if exists c :: c in old(consumers) && Waiting(old(consumers), fp, c) then Abort(FlightInconsistent)
                        else Spec.OpenFlight(old(Now()), r, task, fp, domain, now, limits);
              match tx
              case Commit(db, value) => Now() == db && reply == Done(value)
              case Abort(fault) => reply == Refused(fault)
    {
      hide Spec.JoinFlight, Spec.OpenFlight, Waiting;
      if fp in flights && flights[fp].active {
        reply := JoinFlight(r, fp, domain, now);
      } else if exists c :: c in consumers && Waiting(consumers, fp, c) {
        reply := Refused(FlightInconsistent);
      } else {
        reply := OpenFlight(r, task, fp, domain, now, limits);
      }
    }

    method AdmitLogicalRequest(r: Id, task: Id, fp: Id, domain: Id, token: Token, now: Time, limits: QueuePolicy)
      returns (reply: Reply<Admission>)
      requires References()
      modifies this
      ensures Follows(Spec.Admit(old(Now()), r, task, fp, domain, token, now, limits), old(Now()), Now(), reply)
    {
      hide Fence, Reconcile, Spec.JoinFlight, Spec.OpenFlight, Waiting, ForeignKeys;
      ghost var was := Now();
      var saved := Save();
      var fence := Fence(lease, token, now);
      if fence.Some? {
        return Refused(fence.value);
      }
      if r in requests {
        return Refused(DuplicateKey);
      }
      requests := requests[r := Request(task, fp, ReqQueued)];
      ghost var added := Now();
      AdmissionReady(was, added, r, fp);
      ReconcileFault(added, Some(fp));
      var ok := ReconcileTerminalFlights(Some(fp));
      if !ok {
        Rollback(saved, was);
        return Refused(FlightInconsistent);
      }
      reply := EnterFlight(r, task, fp, domain, now, limits);
      if reply.Refused? {
        Rollback(saved, was);
      }
    }

    // ---------------------------------------------------------------- cancellation

    // Every active consumer of the flight leaves with this result.
    method LeaveAll(leaving: set<Id>, result: Result) returns (ok: bool)
      requires leaving <= consumers.Keys
      modifies `requests, `results, `consumers
      ensures ok <==> forall r :: r in leaving ==> Queued(old(requests), r) && r !in old(results)
      ensures ok ==>
                && requests == CloseRequests(old(requests), leaving, result.kind) && results == CloseResults(old(results), leaving, result)
                && consumers == Leave(old(consumers), leaving)
    {
      hide CloseRequests, CloseResults, Leave;
      var todo := leaving;
      ghost var done: set<Id> := {};
      CloseNone(requests, results, consumers, result);
      while todo != {}
        invariant todo !! done && todo + done == leaving
        invariant requests == CloseRequests(old(requests), done, result.kind) && results == CloseResults(old(results), done, result)
        invariant consumers == Leave(old(consumers), done)
        invariant forall r :: r in done ==> Queued(old(requests), r) && r !in old(results)
        decreases |todo|
      {
        var r :| r in todo;
        StillClosable(old(requests), old(results), done, r, result);
        var persisted := PersistResult(r, result);
        if !persisted {
          return false;
        }
        CloseOneMore(old(requests), old(results), done, r, result);
        LeaveOneMore(old(consumers), done, r);
        consumers := consumers[r := consumers[r].(state := Left)];
        todo, done := todo - {r}, done + {r};
      }
      assert done == leaving;
      return true;
    }

    // The leader's gates are given back and its started attempt becomes unknown.
    method AbandonAttempt(leader: Id) returns (ok: bool)
      modifies `gates, `reservations, `attempts
      ensures ok <==> ReleaseOccupancy(old(Now()), leader).Commit?
      ensures ok ==>
                var freed := ReleaseOccupancy(old(Now()), leader).db;
                && gates == freed.gates && reservations == freed.reservations
                && attempts == WithState(old(attempts), StartedOf(old(attempts), leader), AttUnknown)
    {
      hide WithState, ReleaseOccupancy;
      OccupancyTables(Now(), leader);
      var released := ReleaseGateOccupancy(leader);
      if released.Refused? {
        return false;
      }
      attempts := WithState(attempts, StartedOf(attempts, leader), AttUnknown);
      return true;
    }

    // The flight may have been sent: its attempt becomes unknown and everybody leaves.
    method CancelStartedFlight(fp: Id, reason: Id, now: Time) returns (reply: Reply<()>)
      modifies `gates, `reservations, `attempts, `requests, `results, `consumers, `flights
      ensures match Spec.CancelStartedFlight(old(Now()), fp, reason, now)
              case Commit(db, _) => Now() == db && reply == Done(())
              case Abort(fault) => reply == Refused(fault)
    {
      hide ReleaseOccupancy, CloseRequests, CloseResults, Leave, WithState, Waiting, Spec.CancelStartedFlight, StartedOf;
      ghost var was := Now();
      CancelStartedFaults(was, fp, reason, now);
      if fp !in flights || !flights[fp].active {
        return Refused(FlightInconsistent);
      }
      var leader := flights[fp].leader;
      var leaving := WaitingOf(consumers, fp);
      var abandoned := AbandonAttempt(leader);
      if !abandoned {
        return Refused(GateInconsistent);
      }
      reply := EveryoneLeaves(fp, leaving, CancelResult(OutUnknown, now, reason));
      if reply.Done? {
        CancelStartedTables(was, Now(), fp, reason, now);
      }
    }

    // The flight ends and everybody leaves it.
    method EveryoneLeaves(fp: Id, leaving: set<Id>, result: Result) returns (reply: Reply<()>)
      requires fp in flights && leaving <= consumers.Keys
      modifies `requests, `results, `consumers, `flights
      ensures reply == if exists r :: r in leaving && !(Queued(old(requests), r) && r !in old(results)) then Refused(NotCancellable)
                       else Done(())
      ensures reply.Done? ==>
                && requests == CloseRequests(old(requests), leaving, result.kind) && results == CloseResults(old(results), leaving, result)
                && consumers == Leave(old(consumers), leaving) && flights == old(flights)[fp := old(flights)[fp].(active := false)]
    {
      hide CloseRequests, CloseResults, Leave;
      var left := LeaveAll(leaving, result);
      if !left {
        return Refused(NotCancellable);
      }
      flights := flights[fp := flights[fp].(active := false)];
      return Done(());
    }

    // The follower that joined first.
    method EarliestFollower(fp: Id) returns (next: Option<Id>)
      ensures next == NextLeader(consumers, fp)
    {
      var followers := set r | r in consumers && Waiting(consumers, fp, r) && consumers[r].role == Follower;
      if followers == {} {
        return None;
      }
      var row := FirstRow(followers, JoinTimes(consumers));
      return Some(row);
    }

    // The request is cancelled, leaves its flight and its place in the queue.
    method LeaveAlone(r: Id, result: Result) returns (ok: bool)
      requires r in consumers && r in queue
      modifies `requests, `results, `consumers, `queue
      ensures ok <==> Queued(old(requests), r) && r !in old(results)
      ensures ok ==>
                && requests == CloseRequests(old(requests), {r}, result.kind) && results == CloseResults(old(results), {r}, result)
                && consumers == Leave(old(consumers), {r}) && queue == old(queue)[r := old(queue)[r].(state := Withdrawn)]
    {
      hide CloseRequests, CloseResults, Leave;
      ok := LeaveAll({r}, result);
      LeftOne(old(consumers), r);
      queue := queue[r := queue[r].(state := Withdrawn)];
    }

    // The follower takes over the flight and a place in the queue.
    method Promote(next: Id, fp: Id, now: Time) returns (ok: bool)
      requires next in consumers && next in requests && fp in flights
      modifies `consumers, `flights, `queue
      ensures ok <==> next !in old(queue)
      ensures ok ==>
                && consumers == old(consumers)[next := old(consumers)[next].(role := Leader)]
                && flights == old(flights)[fp := old(flights)[fp].(leader := next)]
                && queue == old(queue)[next := Entry(old(consumers)[next].domain, requests[next].task, now, InQueue)]
    {
      consumers := consumers[next := consumers[next].(role := Leader)];
      flights := flights[fp := flights[fp].(leader := next)];
      if next in queue {
        return false;
      }
      queue := queue[next := Entry(consumers[next].domain, requests[next].task, now, InQueue)];
      return true;
    }

    // The flight goes on to this follower, or ends.
    method HandOn(follower: Option<Id>, fp: Id, now: Time) returns (ok: bool)
      requires fp in flights && (follower.Some? ==> follower.value in consumers && follower.value in requests)
      modifies `consumers, `flights, `queue
      ensures follower.None? ==> ok && flights == old(flights)[fp := old(flights)[fp].(active := false)]
                                 && consumers == old(consumers) && queue == old(queue)
      ensures follower.Some? ==> (ok <==> follower.value !in old(queue))
      ensures follower.Some? && ok ==>
                var next := follower.value;
                && consumers == old(consumers)[next := old(consumers)[next].(role := Leader)]
                && flights == old(flights)[fp := old(flights)[fp].(leader := next)]
                && queue == old(queue)[next := Entry(old(consumers)[next].domain, requests[next].task, now, InQueue)]
    {
      if follower.None? {
        flights := flights[fp := flights[fp].(active := false)];
        return true;
      }
      ok := Promote(follower.value, fp, now);
    }

    // The leader leaves first, then the flight is handed on.
    method LeaveAndHandOn(r: Id, fp: Id, follower: Option<Id>, result: Result, now: Time) returns (fault: Option<Fault>)
      requires r in consumers && r in queue && fp in flights && follower != Some(r)
      requires follower.Some? ==> follower.value in consumers && follower.value in requests
      modifies `requests, `results, `consumers, `queue, `flights
      ensures fault == if !(Queued(old(requests), r) && r !in old(results)) then Some(NotCancellable)
                       else if follower.Some? && follower.value in old(queue) then Some(DuplicateKey) else None
      ensures fault.None? ==>
                var left := Leave(old(consumers), {r});
                var withdrawn := old(queue)[r := old(queue)[r].(state := Withdrawn)];
                && requests == CloseRequests(old(requests), {r}, result.kind) && results == CloseResults(old(results), {r}, result)
                && match follower
                   case None => consumers == left && queue == withdrawn && flights == old(flights)[fp := old(flights)[fp].(active := false)]
                   case Some(next) =>
                     && next in left && consumers == left[next := left[next].(role := Leader)]
                     && queue == withdrawn[next := Entry(left[next].domain, old(requests)[next].task, now, InQueue)]
                     && flights == old(flights)[fp := old(flights)[fp].(leader := next)]
    {
      if follower.Some? {
        SameRows(consumers, requests, r, follower.value, result.kind);
      }
      hide CloseRequests, CloseResults, Leave, Queued;
      var left := LeaveAlone(r, result);
      if !left {
        return Some(NotCancellable);
      }
      var handed := HandOn(follower, fp, now);
      return if handed then None else Some(DuplicateKey);
    }

    // The unsent leader leaves, and the next follower takes its place in the queue, or the flight ends.
    method ReplaceLeader(r: Id, reason: Id, now: Time) returns (reply: Reply<Option<Id>>)
      requires r in consumers && consumers[r].role == Leader && r in queue
      requires consumers[r].fingerprint in flights && consumers.Keys <= requests.Keys
      modifies `requests, `results, `consumers, `queue, `flights
      ensures match Spec.ReplaceLeader(old(Now()), r, reason, now)
              case Commit(db, value) => Now() == db && reply == Done(value)
              case Abort(fault) => reply == Refused(fault)
    {
      FollowerKnown(consumers, consumers[r].fingerprint);
      hide NextLeader, CloseRequests, CloseResults, Leave, Spec.ReplaceLeader, Queued;
      ghost var was := Now();
      var fp := consumers[r].fingerprint;
      var follower := EarliestFollower(fp);
      var fault := LeaveAndHandOn(r, fp, follower, CancelResult(OutCancelled, now, reason), now);
      ReplaceTables(was, Now(), r, reason, now, follower, fault);
      return if fault.Some? then Refused(fault.value) else Done(follower);
    }

    // The first live attempt of the request.
    method EarliestActive(r: Id) returns (active: Option<Id>)
      ensures active == FirstActive(attempts, r)
    {
      if ActiveAttempts(attempts, r) == {} {
        return None;
      }
      var row := FirstRow(ActiveAttempts(attempts, r), Numbers(attempts));
      return Some(row);
    }

    // A reserved attempt is given up, with its gates.
    method GiveUpReserved(r: Id, active: Id) returns (ok: bool)
      modifies `gates, `reservations, `attempts
      ensures ok <==> ReleaseOccupancy(old(Now()), r).Commit?
      ensures ok ==> Now() == ReleaseOccupancy(old(Now()), r).db.(attempts := WithState(old(attempts), {active}, AttFailed))
    {
      hide WithState, ReleaseOccupancy;
      OccupancyTables(Now(), r);
      var released := ReleaseGateOccupancy(r);
      if released.Refused? {
        return false;
      }
      attempts := WithState(attempts, {active}, AttFailed);
      return true;
    }

    method CancelLeader(r: Id, reason: Id, now: Time) returns (reply: Reply<Option<Id>>)
      requires References() && r in consumers && consumers[r].role == Leader
      modifies this
      ensures match Spec.CancelLeader(old(Now()), r, reason, now)
              case Commit(db, value) => Now() == db && reply == Done(value)
              case Abort(fault) => reply == Refused(fault)
    {
      hide FirstActive, ReleaseOccupancy, Spec.CancelStartedFlight, Spec.ReplaceLeader, HasSentAttempt, WithState;
      ghost var was := Now();
      var fp := consumers[r].fingerprint;
      var active := EarliestActive(r);
      ActiveKnown(attempts, r);
      OccupancyTables(was, r);
      var sent := HasSentAttempt(attempts, r);
      if active.Some? && attempts[active.value].state == Started {
        var cancelled := CancelStartedFlight(fp, reason, now);
        return if cancelled.Done? then Done(None) else Refused(cancelled.fault);
      }
      if r !in queue || (queue[r].state != InQueue && queue[r].state != Dequeued) {
        return Refused(InFlightCancellation);
      }
      if active.Some? {
        var given := GiveUpReserved(r, active.value);
        if !given {
          return Refused(GateInconsistent);
        }
      }
      if sent {
        var cancelled := CancelStartedFlight(fp, reason, now);
        return if cancelled.Done? then Done(None) else Refused(cancelled.fault);
      }
      reply := ReplaceLeader(r, reason, now);
    }

    method CancelAdmittedRequest(r: Id, reason: Id, token: Token, now: Time) returns (reply: Reply<Option<Id>>)
      requires References()
      modifies this
      ensures Follows(Spec.Cancel(old(Now()), r, reason, token, now), old(Now()), Now(), reply)
    {
      hide Fence, Spec.CancelLeader, CloseRequests, CloseResults, Leave;
      ghost var was := Now();
      var saved := Save();
      var fence := Fence(lease, token, now);
      if fence.Some? {
        return Refused(fence.value);
      }
      if r !in consumers || consumers[r].state != Active {
        return Refused(ConsumerNotActive);
      }
      if consumers[r].role == Follower {
        var left := LeaveAll({r}, CancelResult(OutCancelled, now, reason));
        reply := if left then Done(None) else Refused(NotCancellable);
      } else {
        reply := CancelLeader(r, reason, now);
      }
      if reply.Refused? {
        Rollback(saved, was);
      }
    }

    // ---------------------------------------------------------------- recovery

    // Requests whose attempt was started close with an unknown outcome.
    method CloseStarted(started: set<Id>, now: Time)
      requires forall r :: r in started ==> Queued(requests, r) && r !in results
      modifies `requests, `results
      ensures requests == FailRequests(old(requests), started, {})
      ensures results == FailResults(old(results), attempts, started, {}, now)
    {
      hide FailRequests, FailResults;
      FailNone(requests, results, attempts, now);
      var todo := started;
      ghost var done: set<Id> := {};
      while todo != {}
        invariant todo !! done && todo + done == started
        invariant requests == FailRequests(old(requests), done, {}) && results == FailResults(old(results), attempts, done, {}, now)
        decreases |todo|
      {
        var r :| r in todo;
        assert Queued(old(requests), r);
        FailStarted(old(requests), old(results), attempts, done, r, now);
        if !Queued(requests, r) || r in results {
          assert false;
        }
        requests := requests[r := requests[r].(state := ReqFailed)];
        results := results[r := Result(OutUnknown, now, Some(OWNER_INTERRUPTED))];
        todo, done := todo - {r}, done + {r};
      }
      assert done == started;
    }

    // Requests interrupted between two attempts close too; a result row that exists already stops the recovery.
    method CloseBetween(ghost was: Db, ghost started: set<Id>, between: set<Id>, now: Time) returns (ok: bool)
      requires attempts == was.attempts && between <= was.requests.Keys && started !! between
      requires requests == FailRequests(was.requests, started, {}) && results == FailResults(was.results, was.attempts, started, {}, now)
      modifies `requests, `results
      ensures ok <==> forall r :: r in between ==> r !in was.results
      ensures ok ==> requests == FailRequests(was.requests, started, between)
      ensures ok ==> results == FailResults(was.results, was.attempts, started, between, now)
    {
      hide FailRequests, FailResults;
      var todo := between;
      ghost var done: set<Id> := {};
      while todo != {}
        invariant todo !! done && todo + done == between
        invariant requests == FailRequests(was.requests, started, done)
        invariant results == FailResults(was.results, was.attempts, started, done, now)
        invariant forall r :: r in done ==> r !in was.results
        decreases |todo|
      {
        var r :| r in todo;
        FailBetween(was.requests, was.results, was.attempts, started, done, r, now);
        requests := requests[r := requests[r].(state := ReqFailed)];
        if r in results {
          return false;
        }
        results := results[r := Result(InterruptedKind(attempts, r), now, Some(INTERRUPTED_BETWEEN_ATTEMPTS))];
        todo, done := todo - {r}, done + {r};
      }
      assert done == between;
      return true;
    }

    // Claimed requests that never got an attempt go back into the queue.
    method RequeueInterrupted()
      modifies `queue
      ensures queue == Requeue(old(Now()))
    {
      var view := DbOf(Save(), EMPTY_DB.history);
      SameRequeue(Now(), view);
      queue := Requeue(view);
    }

    // Requests interrupted while or after being sent are closed.
    method CloseInterrupted(ghost was: Db, generation: nat, now: Time) returns (ok: bool)
      requires ForeignKeys(was) && RecoveryFault(was, generation).None?
      requires attempts == was.attempts && requests == was.requests && results == was.results
      modifies `requests, `results
      ensures ok <==> forall r :: r in BetweenAttempts(was) ==> r !in was.results
      ensures ok ==> requests == FailRequests(was.requests, StartedRequests(was.attempts, generation), BetweenAttempts(was))
      ensures ok ==> results == FailResults(was.results, was.attempts, StartedRequests(was.attempts, generation), BetweenAttempts(was), now)
    {
      StartedClosable(was, generation);
      hide FailRequests, FailResults, StartedRequests, BetweenAttempts, RecoveryFault, ForeignKeys;
      var started := StartedRequests(attempts, generation);
      CloseStarted(started, now);
      var view := DbOf(Save(), EMPTY_DB.history);
      SameBetween(was, view, generation);
      ok := CloseBetween(was, started, BetweenAttempts(view), now);
    }

    // Everything recovery writes before flights are reconciled.
    method InterruptOwner(generation: nat, now: Time) returns (fault: Option<Fault>)
      requires References() && RecoveryFault(Now(), generation).None?
      modifies this
      ensures fault == InterruptionFault(old(Now()), generation)
      ensures fault.None? ==> Now() == Interrupt(old(Now()), generation, now)
    {
      InterruptFaults(Now(), generation);
      hide Interrupt, Lowered, Settle, Releasable, Requeue, InterruptAttempts, FailRequests, FailResults, StartedRequests, BetweenAttempts,
           RecoveryFault, HeldUpTo, InterruptionFault, ForeignKeys;
      ghost var was := Now();
      RequeueInterrupted();
      var released := ReleaseAll(HeldUpTo(reservations, generation), Recovered);
      if !released {
        return Some(AuditGap);
      }
      var closed := CloseInterrupted(was, generation, now);
      if !closed {
        return Some(DuplicateKey);
      }
      attempts := InterruptAttempts(attempts, generation);
      InterruptTables(was, Now(), generation, now);
      return None;
    }

    method RecoverExpiredLease(owner: Id, now: Time, duration: nat) returns (reply: Reply<Token>)
      requires References()
      modifies this
      ensures Follows(Spec.RecoverLease(old(Now()), owner, now, duration), old(Now()), Now(), reply)
    {
      RecoverInParts(Now(), owner, now, duration);
      hide Spec.RecoverLease;
      if lease.None? || !lease.value.active {
        return Refused(LeaseNotFound);
      }
      if now < lease.value.heartbeatAt {
        return Refused(ClockRollback);
      }
      if now < lease.value.expiresAt {
        return Refused(LeaseHeld);
      }
      reply := TakeOver(owner, now, duration);
    }

    method TakeOver(owner: Id, now: Time, duration: nat) returns (reply: Reply<Token>)
      requires References() && lease.Some?
      modifies this
      ensures Follows(ExpiredTakenOver(old(Now()), owner, now, duration), old(Now()), Now(), reply)
    {
      hide RecoveryFault, InterruptionFault, Interrupt, Reconcile, ForeignKeys;
      ghost var was := Now();
      var saved, generation := Save(), lease.value.generation;
      var fault := RecoveryFault(DbOf(saved, EMPTY_DB.history), generation);
      SameFault(was, DbOf(saved, EMPTY_DB.history), generation);
      if fault.Some? {
        return Refused(fault.value);
      }
      fault := InterruptOwner(generation, now);
      if fault.Some? {
        Rollback(saved, was);
        return Refused(fault.value);
      }
      InterruptKeepsReferences(was, generation, now);
      ReconcileFault(Now(), None);
      var ok := ReconcileTerminalFlights(None);
      if !ok {
        Rollback(saved, was);
        return Refused(FlightInconsistent);
      }
      lease := Some(LeaseRow(owner, generation + 1, now, now, now + duration, true));
      return Done(Token(owner, generation + 1, now, now + duration));
    }
  }

  // This consumer can receive the leader's result.
  predicate ReceiverFits(db: Db, fp: Id, leader: Id, r: Id) {
    && r in db.requests && r in db.consumers
    && db.requests[r].fingerprint == fp && r in db.audited && (db.consumers[r].role == Leader <==> r == leader)
    && (r != leader ==> AttemptsOf(db.attempts, r) == {} && Closable(db, r))
  }

  // The leader's flight can be finished.
  ghost predicate Finishes(db: Db, leader: Id)
    requires leader in db.consumers
  {
    var fp := db.consumers[leader].fingerprint;
    fp in db.flights && db.flights[fp].leader == leader && Deliverable(db, fp)
  }

  lemma NobodyYet(requests: Requests, results: Results, consumers: Consumers, leader: Id)
    ensures DeliverConsumers(consumers, OwnedBy({}, leader)) == consumers
    ensures DeliverRequests(requests, results, OwnedBy({}, leader)) == requests
    ensures DeliverResults(results, OwnedBy({}, leader)) == results
  {
    assert OwnedBy({}, leader) == map[];
    DeliverNone(requests, results, consumers);
  }

  lemma FitsAsBefore(was: Db, now: Db, fp: Id, leader: Id, r: Id)
    requires now.attempts == was.attempts && now.audited == was.audited
    requires (r in now.requests <==> r in was.requests) && (r in was.requests ==> now.requests[r] == was.requests[r])
    requires (r in now.consumers <==> r in was.consumers) && (r in was.consumers ==> now.consumers[r] == was.consumers[r])
    requires r in now.results <==> r in was.results
    ensures ReceiverFits(now, fp, leader, r) <==> ReceiverFits(was, fp, leader, r)
  {
  }

  lemma FitsFacts(db: Db, fp: Id, leader: Id, r: Id)
    requires ReceiverFits(db, fp, leader, r)
    ensures r in db.consumers && (r != leader ==> Queued(db.requests, r) && r !in db.results)
  {
  }

  lemma FinishesWhen(db: Db, leader: Id)
    requires leader in db.consumers && db.consumers.Keys <= db.requests.Keys
    ensures var fp := db.consumers[leader].fingerprint;
            Finishes(db, leader) <==>
              && db.consumers[leader].role == Leader && db.consumers[leader].state == Active
              && fp in db.flights && db.flights[fp] == Flight(leader, true)
              && forall r :: r in db.consumers && Waiting(db.consumers, fp, r) ==> ReceiverFits(db, fp, leader, r)
  {
    var fp := db.consumers[leader].fingerprint;
    if fp in db.flights && db.flights[fp] == Flight(leader, true) {
      forall r | r in db.consumers && Waiting(db.consumers, fp, r)
        ensures r in db.requests
      {
      }
      hide AttemptsOf, Closable;
    }
  }

  lemma ReconcilableWhen(db: Db, fp: Id)
    requires fp in db.flights && db.flights[fp].active && db.consumers.Keys <= db.requests.Keys
    ensures var leader := db.flights[fp].leader;
            Reconcilable(db, fp) <==>
              && leader in db.consumers && leader in db.requests && db.consumers[leader].role == Leader && db.consumers[leader].state == Active
              && (LeaderFinished(db, fp) ==>
                    && leader in db.results && db.requests[leader].state == StateOf(db.results[leader].kind)
                    && AttemptFault(db.attempts, leader, db.results[leader].kind).None?
                    && db.consumers[leader].fingerprint == fp && Finishes(db, leader))
  {
    hide AttemptFault, Waiting;
  }

  function FinishedOf(db: Db, some: set<Id>): set<Id> {
    set fp | fp in some && LeaderFinished(db, fp)
  }

  ghost predicate AllReconcilable(db: Db, fps: set<Id>) {
    forall fp :: fp in fps ==> Reconcilable(db, fp)
  }

  lemma OneLess(all: set<Id>, todo: set<Id>, x: Id)
    ensures x in todo && x in all ==> all - todo + {x} == all - (todo - {x})
    ensures all - {} == all && all - all == {}
  {
  }

  // Of the flights `seen` every one could be reconciled, and has been.
  ghost predicate ReconciledSoFar(was: Db, seen: set<Id>, now: Db) {
    ForeignKeys(now) && AllReconcilable(was, seen) && now == Deliver(was, FinishedOf(was, seen))
  }

  lemma NoneReconciledYet(db: Db)
    requires ForeignKeys(db)
    ensures ReconciledSoFar(db, {}, db)
  {
    hide Deliver, FinishedOf;
    DeliverNoFlight(db);
  }

  function ActiveFlights(flights: Flights, filter: Option<Id>): set<Id> {
    set fp | fp in flights && flights[fp].active && (filter == None || filter == Some(fp))
  }

  lemma EachActive(flights: Flights, filter: Option<Id>)
    ensures forall fp :: fp in ActiveFlights(flights, filter) ==> fp in flights && flights[fp].active
  {
  }

  lemma ReconcileEnds(was: Db, filter: Option<Id>, now: Db)
    ensures ReconciledSoFar(was, ActiveFlights(was.flights, filter), now) ==> Reconcile(was, filter) == Commit(now, ())
    ensures !AllReconcilable(was, ActiveFlights(was.flights, filter)) ==> Reconcile(was, filter).Abort?
  {
    hide Deliver, FinishedOf, Reconcile, AllReconcilable, ForeignKeys;
    ReconcileIs(was, filter, ActiveFlights(was.flights, filter));
  }

  lemma NotAllReconcilable(db: Db, fps: set<Id>, fp: Id)
    requires fp in fps && !Reconcilable(db, fp)
    ensures !AllReconcilable(db, fps)
  {
    hide Reconcilable;
  }

  // Reconciling one more flight after those already seen.
  lemma OneMoreReconciled(db: Db, seen: set<Id>, fp: Id)
    requires AllReconcilable(db, seen) && fp !in seen && fp in db.flights && db.flights[fp].active && ForeignKeys(db)
    ensures var now := Deliver(db, FinishedOf(db, seen));
            && fp in now.flights && now.flights[fp].active && (Reconcilable(now, fp) <==> Reconcilable(db, fp))
            && (Reconcilable(db, fp) ==>
                  && AllReconcilable(db, seen + {fp})
                  && Deliver(db, FinishedOf(db, seen + {fp})) == (if LeaderFinished(now, fp) then Deliver(now, {fp}) else now)
                  && ForeignKeys(Deliver(db, FinishedOf(db, seen + {fp}))))
  {
    hide Deliver, Reconcilable, LeaderFinished, ForeignKeys;
    var finished := FinishedOf(db, seen);
    ReconcilableUntouched(db, finished, fp);
    StillActive(db, finished, fp);
    if Reconcilable(db, fp) {
      OneFlightSeen(db, seen, fp);
      DeliverKeepsReferences(Deliver(db, FinishedOf(db, seen + {fp})), db, FinishedOf(db, seen + {fp}));
    }
  }

  lemma DeliverNoFlight(db: Db)
    ensures Deliver(db, FinishedOf(db, {})) == db
  {
    hide Deliver;
    assert FinishedOf(db, {}) == {};
    DeliveryProofs.DeliverNothing(db);
  }

  lemma StillActive(db: Db, fps: set<Id>, fp: Id)
    requires fp !in fps && fp in db.flights && db.flights[fp].active
    ensures fp in Deliver(db, fps).flights && Deliver(db, fps).flights[fp].active
  {
  }

  lemma OneFlightSeen(db: Db, seen: set<Id>, fp: Id)
    requires fp !in seen && forall f :: f in seen + {fp} ==> Reconcilable(db, f)
    ensures Deliver(db, FinishedOf(db, seen + {fp}))
            == if LeaderFinished(db, fp) then Deliver(Deliver(db, FinishedOf(db, seen)), {fp}) else Deliver(db, FinishedOf(db, seen))
  {
    hide Deliver, Reconcilable, LeaderFinished;
    if LeaderFinished(db, fp) {
      assert FinishedOf(db, seen + {fp}) == FinishedOf(db, seen) + {fp};
      DeliverOneFlightMore(db, FinishedOf(db, seen), fp);
    } else {
      assert FinishedOf(db, seen + {fp}) == FinishedOf(db, seen);
    }
  }

  lemma DeliverKeepsReferences(after: Db, db: Db, fps: set<Id>)
    requires ForeignKeys(db) && after == Deliver(db, fps)
    ensures ForeignKeys(after)
  {
    DeliverKeys(db, fps);
  }

  /** The joint invariant implies the foreign keys. */
  lemma InvariantReferences(db: Db)
    requires Inv(db)
    ensures ForeignKeys(db)
  {
    hide OwnersOk, OneActive, ReservationsOk, Accounting, HoldingsOk, StartsOk, SuccessOk, EpisodesOk, SendersOk;
  }

  lemma ReconcileIs(db: Db, filter: Option<Id>, active: set<Id>)
    requires active == set fp | fp in db.flights && db.flights[fp].active && (filter == None || filter == Some(fp))
    ensures Reconcile(db, filter)
            == if AllReconcilable(db, active) then Commit(Deliver(db, FinishedOf(db, active)), ())
               else Abort(FlightInconsistent)
  {
    hide Deliver, Reconcilable, LeaderFinished;
    assert FinishedOf(db, active) == set fp | fp in active && LeaderFinished(db, fp);
  }

  lemma ReconcileFault(db: Db, filter: Option<Id>)
    ensures Reconcile(db, filter).Abort? ==> Reconcile(db, filter).fault == FlightInconsistent
  {
    hide Deliver, Reconcilable;
  }

  lemma ClosedOne(requests: Requests, results: Results, r: Id, result: Result)
    requires Queued(requests, r) && r !in results
    ensures CloseRequests(requests, {r}, result.kind) == requests[r := requests[r].(state := StateOf(result.kind))]
    ensures CloseResults(results, {r}, result) == results[r := result]
  {
    assert CloseResults(results, {r}, result).Keys == results.Keys + {r};
  }

  function FinalFault(db: Db, r: Id, kind: ResultKind, token: Token, now: Time): Option<Fault> {
    if Fence(db.lease, token, now).Some? then Fence(db.lease, token, now)
    else if !Queued(db.requests, r) then Some(RequestNotActive)
    else if r in db.consumers && (db.consumers[r].role != Leader || db.consumers[r].state != Active) then Some(LeaderRequired)
    else AttemptFault(db.attempts, r, kind)
  }

  lemma FinalizeInParts(db: Db, r: Id, result: Result, token: Token, now: Time)
    ensures var persisted := db.(requests := CloseRequests(db.requests, {r}, result.kind), results := CloseResults(db.results, {r}, result));
            Spec.Finalize(db, r, result, token, now)
            == if FinalFault(db, r, result.kind, token, now).Some? then Abort(FinalFault(db, r, result.kind, token, now).value)
               else if r in db.results then Abort(DuplicateKey)
               else if r !in db.consumers then Commit(persisted, ())
               else if !Finishes(persisted, r) then Abort(FlightInconsistent)
               else Commit(Deliver(persisted, {db.consumers[r].fingerprint}), ())
    ensures FinalFault(db, r, result.kind, token, now).None? ==> Queued(db.requests, r)
  {
    hide Fence, AttemptFault, Deliver, Deliverable, CloseRequests, CloseResults;
  }

  lemma OpenCommits(db: Db, r: Id, task: Id, fp: Id, domain: Id, now: Time, limits: QueuePolicy)
    requires r !in db.queue && Closable(db, r)
    ensures var tx := Spec.OpenFlight(db, r, task, fp, domain, now, limits);
            tx.Commit? && tx.value == if QueueFull(db.queue, domain, task, limits) then QueueRejected else AsLeader
  {
    hide QueueFull, CloseRequests, CloseResults, Closable;
  }

  lemma OpenIs(db: Db, r: Id, task: Id, fp: Id, domain: Id, now: Time, limits: QueuePolicy)
    requires r !in db.queue && Closable(db, r)
    ensures var full := QueueFull(db.queue, domain, task, limits);
            var led := db.(flights := db.flights[fp := Flight(r, !full)], audited := db.audited + {r},
                           consumers := db.consumers[r := ConsumerRow(fp, Leader, if full then Left else Active, domain, now)],
                           queue := db.queue[r := Entry(domain, task, now, if full then Rejected else InQueue)],
                           history := History(db.history.started, db.history.episode[r := Episode(db.history.activations, fp)],
                                              db.history.activations + 1));
            Spec.OpenFlight(db, r, task, fp, domain, now, limits)
            == if full then
                 Commit(led.(requests := CloseRequests(db.requests, {r}, OutFailed),
                             results := CloseResults(db.results, {r}, Result(OutFailed, now, Some(QUEUE_FULL)))), QueueRejected)
               else Commit(led, AsLeader)
  {
    hide QueueFull, CloseRequests, CloseResults, Closable;
    OpenCommits(db, r, task, fp, domain, now, limits);
    if QueueFull(db.queue, domain, task, limits) {
      RejectedTables(db, r, task, fp, domain, now, limits);
    } else {
      OpenedTables(db, r, task, fp, domain, now, limits);
    }
    hide Spec.OpenFlight;
  }

  // A request just inserted has no other row yet, and the leader of a reconciled flight has its consumer row.
  lemma OpenTables(was: Db, after: Db, r: Id, task: Id, fp: Id, domain: Id, now: Time, limits: QueuePolicy, full: bool)
    requires r !in was.queue && Queued(was.requests, r) && r !in was.results && full == QueueFull(was.queue, domain, task, limits)
    requires after.flights == was.flights[fp := Flight(r, !full)] && after.audited == was.audited + {r}
    requires after.consumers == was.consumers[r := ConsumerRow(fp, Leader, if full then Left else Active, domain, now)]
    requires after.queue == was.queue[r := Entry(domain, task, now, if full then Rejected else InQueue)]
    requires after.history == History(was.history.started, was.history.episode[r := Episode(was.history.activations, fp)],
                                      was.history.activations + 1)
    requires after.requests == if full then CloseRequests(was.requests, {r}, OutFailed) else was.requests
    requires after.results == if full then CloseResults(was.results, {r}, Result(OutFailed, now, Some(QUEUE_FULL))) else was.results
    requires after.attempts == was.attempts && after.lease == was.lease && after.cursors == was.cursors && after.gates == was.gates
    requires after.reservations == was.reservations && after.scopes == was.scopes && after.starts == was.starts
    ensures Spec.OpenFlight(was, r, task, fp, domain, now, limits) == Commit(after, if full then QueueRejected else AsLeader)
  {
    hide QueueFull, CloseRequests, CloseResults, Spec.OpenFlight, Queued;
    OpenIs(was, r, task, fp, domain, now, limits);
  }

  lemma AdmissionReady(was: Db, added: Db, r: Id, fp: Id)
    requires ForeignKeys(was) && r !in was.requests
    requires r in added.requests && added.requests == was.requests[r := added.requests[r]] && added.requests[r].state == ReqQueued
    requires added == was.(requests := added.requests)
    ensures ForeignKeys(added)
    ensures var tx := Reconcile(added, Some(fp));
            tx.Commit? ==>
              && r !in tx.db.consumers && r !in tx.db.queue && Queued(tx.db.requests, r) && r !in tx.db.results
              && (fp in tx.db.flights && tx.db.flights[fp].active ==> tx.db.flights[fp].leader in tx.db.consumers)
  {
    var some := Some(fp);
    var active := set f | f in added.flights && added.flights[f].active && (some == None || some == Some(f));
    ReconcileIs(added, some, active);
    hide Reconcile, Deliverable, AttemptFault, LeaderFinished, DeliverRequests, DeliverResults, DeliverConsumers, WithdrawLeaders, EndFlights;
    if Reconcile(added, some).Commit? {
      var fps := FinishedOf(added, active);
      UnseenByDelivery(added, fps, r);
      DeliverKeys(added, fps);
      if fp in Deliver(added, fps).flights && Deliver(added, fps).flights[fp].active {
        ActiveBefore(added.flights, fps, fp);
        assert fp in active;
      }
    }
  }

  lemma ActiveBefore(flights: Flights, fps: set<Id>, fp: Id)
    requires fp in EndFlights(flights, fps) && EndFlights(flights, fps)[fp].active
    ensures fp in flights && EndFlights(flights, fps)[fp] == flights[fp]
  {
  }

  lemma UnseenByDelivery(db: Db, fps: set<Id>, r: Id)
    requires r !in db.consumers && r !in db.queue && Queued(db.requests, r) && r !in db.results
    ensures var after := Deliver(db, fps);
            r !in after.consumers && r !in after.queue && Queued(after.requests, r) && r !in after.results
  {
  }

  function StartedOf(attempts: Attempts, r: Id): set<Id> {
    set a | a in attempts && attempts[a].request == r && attempts[a].state == Started
  }

  function WaitingOf(consumers: Consumers, fp: Id): set<Id> {
    set r | r in consumers && Waiting(consumers, fp, r)
  }

  lemma CancelStartedIs(db: Db, fp: Id, reason: Id, now: Time)
    ensures Spec.CancelStartedFlight(db, fp, reason, now)
            == if fp !in db.flights || !db.flights[fp].active then Abort(FlightInconsistent)
               else
                 var leader, leaving := db.flights[fp].leader, WaitingOf(db.consumers, fp);
                 if ReleaseOccupancy(db, leader).Abort? then Abort(GateInconsistent)
                 else if exists r :: r in leaving && !(Queued(db.requests, r) && r !in db.results) then Abort(NotCancellable)
                 else
                   var result := CancelResult(OutUnknown, now, reason);
                   Commit(db.(gates := ReleaseOccupancy(db, leader).db.gates, reservations := ReleaseOccupancy(db, leader).db.reservations,
                              attempts := WithState(db.attempts, StartedOf(db.attempts, leader), AttUnknown),
                              requests := CloseRequests(db.requests, leaving, OutUnknown),
                              results := CloseResults(db.results, leaving, result),
                              consumers := Leave(db.consumers, leaving),
                              flights := db.flights[fp := db.flights[fp].(active := false)]), ())
  {
    hide CloseRequests, CloseResults, Leave, WithState, Waiting;
    if fp in db.flights && db.flights[fp].active {
      OccupancyTables(db, db.flights[fp].leader);
      hide ReleaseOccupancy;
      assert WaitingOf(db.consumers, fp) == set r | r in db.consumers && Waiting(db.consumers, fp, r);
      var leader := db.flights[fp].leader;
      assert StartedOf(db.attempts, leader)
          == set a | a in db.attempts && db.attempts[a].request == db.flights[fp].leader && db.attempts[a].state == Started;
    }
  }

  lemma CancelStartedFaults(db: Db, fp: Id, reason: Id, now: Time)
    ensures fp !in db.flights || !db.flights[fp].active ==> Spec.CancelStartedFlight(db, fp, reason, now) == Abort(FlightInconsistent)
    ensures fp in db.flights && db.flights[fp].active && ReleaseOccupancy(db, db.flights[fp].leader).Abort? ==>
              Spec.CancelStartedFlight(db, fp, reason, now) == Abort(GateInconsistent)
    ensures fp in db.flights && db.flights[fp].active && ReleaseOccupancy(db, db.flights[fp].leader).Commit?
            && (exists r :: r in WaitingOf(db.consumers, fp) && !(Queued(db.requests, r) && r !in db.results)) ==>
              Spec.CancelStartedFlight(db, fp, reason, now) == Abort(NotCancellable)
  {
    CancelStartedIs(db, fp, reason, now);
    hide ReleaseOccupancy, CloseRequests, CloseResults, Leave, WithState, WaitingOf, Spec.CancelStartedFlight, StartedOf;
  }

  lemma CancelStartedTables(was: Db, after: Db, fp: Id, reason: Id, now: Time)
    requires fp in was.flights && was.flights[fp].active && ReleaseOccupancy(was, was.flights[fp].leader).Commit?
    requires forall r :: r in WaitingOf(was.consumers, fp) ==> Queued(was.requests, r) && r !in was.results
    requires var leader, leaving := was.flights[fp].leader, WaitingOf(was.consumers, fp);
             var freed := ReleaseOccupancy(was, leader).db;
             after == was.(gates := freed.gates, reservations := freed.reservations,
                           attempts := WithState(was.attempts, StartedOf(was.attempts, leader), AttUnknown),
                           requests := CloseRequests(was.requests, leaving, OutUnknown),
                           results := CloseResults(was.results, leaving, CancelResult(OutUnknown, now, reason)),
                           consumers := Leave(was.consumers, leaving),
                           flights := was.flights[fp := was.flights[fp].(active := false)])
    ensures Spec.CancelStartedFlight(was, fp, reason, now) == Commit(after, ())
  {
    CancelStartedIs(was, fp, reason, now);
    hide ReleaseOccupancy, CloseRequests, CloseResults, Leave, WithState, WaitingOf, Spec.CancelStartedFlight, StartedOf;
  }

  lemma ReplaceLeaderIs(db: Db, r: Id, reason: Id, now: Time)
    requires r in db.consumers && db.consumers[r].role == Leader && r in db.queue
    requires db.consumers[r].fingerprint in db.flights && db.consumers.Keys <= db.requests.Keys
    ensures var fp := db.consumers[r].fingerprint;
            var next, result, left := NextLeader(db.consumers, fp), CancelResult(OutCancelled, now, reason), Leave(db.consumers, {r});
            var withdrawn := db.queue[r := db.queue[r].(state := Withdrawn)];
            && next != Some(r) && (next.Some? ==> next.value in left && next.value in db.requests && next.value in db.consumers)
            && Spec.ReplaceLeader(db, r, reason, now)
               == if !(Queued(db.requests, r) && r !in db.results) then Abort(NotCancellable)
                  else if next.Some? && next.value in db.queue then Abort(DuplicateKey)
                  else
                    var closed := db.(requests := CloseRequests(db.requests, {r}, OutCancelled), results := CloseResults(db.results, {r}, result));
                    match next
                    case None => Commit(closed.(consumers := left, queue := withdrawn,
                                                flights := db.flights[fp := db.flights[fp].(active := false)]), None)
                    case Some(n) => Commit(closed.(
                      consumers := left[n := left[n].(role := Leader)],
                      queue := withdrawn[n := Entry(left[n].domain, db.requests[n].task, now, InQueue)],
                      flights := db.flights[fp := db.flights[fp].(leader := n)]), next)
  {
    var fp := db.consumers[r].fingerprint;
    FollowerKnown(db.consumers, fp);
    if NextLeader(db.consumers, fp).Some? {
      SameRows(db.consumers, db.requests, r, NextLeader(db.consumers, fp).value, OutCancelled);
    }
    hide NextLeader, CloseRequests, CloseResults, Leave;
  }

  lemma ReplaceTables(was: Db, after: Db, r: Id, reason: Id, now: Time, next: Option<Id>, fault: Option<Fault>)
    requires r in was.consumers && was.consumers[r].role == Leader && r in was.queue
    requires was.consumers[r].fingerprint in was.flights && was.consumers.Keys <= was.requests.Keys
    requires next == NextLeader(was.consumers, was.consumers[r].fingerprint) && next != Some(r)
    requires next.Some? ==> next.value in was.consumers && next.value in was.requests
    requires fault == if !(Queued(was.requests, r) && r !in was.results) then Some(NotCancellable)
                      else if next.Some? && next.value in was.queue then Some(DuplicateKey) else None
    requires fault.None? ==>
               var fp, left := was.consumers[r].fingerprint, Leave(was.consumers, {r});
               var withdrawn := was.queue[r := was.queue[r].(state := Withdrawn)];
               && after == was.(requests := CloseRequests(was.requests, {r}, OutCancelled),
                                results := CloseResults(was.results, {r}, CancelResult(OutCancelled, now, reason)),
                                consumers := after.consumers, queue := after.queue, flights := after.flights)
               && match next
                  case None =>
                    after.consumers == left && after.queue == withdrawn && after.flights == was.flights[fp := was.flights[fp].(active := false)]
                  case Some(n) =>
                    && n in left && after.consumers == left[n := left[n].(role := Leader)]
                    && after.queue == withdrawn[n := Entry(left[n].domain, was.requests[n].task, now, InQueue)]
                    && after.flights == was.flights[fp := was.flights[fp].(leader := n)]
    ensures Spec.ReplaceLeader(was, r, reason, now) == if fault.Some? then Abort(fault.value) else Commit(after, next)
  {
    hide NextLeader, CloseRequests, CloseResults, Leave, Spec.ReplaceLeader, Queued;
    ReplaceLeaderIs(was, r, reason, now);
  }

  lemma SameRows(consumers: Consumers, requests: Requests, r: Id, next: Id, kind: ResultKind)
    requires next in consumers && next in requests && next != r
    ensures next in Leave(consumers, {r}) && Leave(consumers, {r})[next] == consumers[next]
    ensures next in CloseRequests(requests, {r}, kind) && CloseRequests(requests, {r}, kind)[next] == requests[next]
  {
  }

  lemma OccupancyTables(db: Db, r: Id)
    ensures var tx := ReleaseOccupancy(db, r);
            && (tx.Commit? ==> tx.db == db.(gates := tx.db.gates, reservations := tx.db.reservations))
            && (tx.Abort? ==> tx.fault == GateInconsistent)
  {
    hide Lowered, Settle, Releasable;
  }

  lemma FollowerKnown(consumers: Consumers, fp: Id)
    ensures NextLeader(consumers, fp).Some? ==>
              NextLeader(consumers, fp).value in consumers && consumers[NextLeader(consumers, fp).value].role == Follower
  {
  }

  lemma ActiveKnown(attempts: Attempts, r: Id)
    ensures FirstActive(attempts, r).Some? ==> FirstActive(attempts, r).value in attempts
  {
  }

  lemma LeftOne(consumers: Consumers, r: Id)
    requires r in consumers
    ensures Leave(consumers, {r}) == consumers[r := consumers[r].(state := Left)]
  {
  }

  // What stops a recovery after its validation.
  function InterruptionFault(db: Db, generation: nat): Option<Fault> {
    if !Releasable(db.gates, db.scopes, HeldUpTo(db.reservations, generation)) then Some(AuditGap)
    else if exists r :: r in BetweenAttempts(db) && r in db.results then Some(DuplicateKey)
    else None
  }

  lemma InterruptIs(db: Db, g: nat, now: Time)
    ensures var started, between, held := StartedRequests(db.attempts, g), BetweenAttempts(db), HeldUpTo(db.reservations, g);
            && Interrupt(db, g, now)
               == db.(gates := Lowered(db.gates, db.scopes, held), reservations := Settle(db.reservations, held, Recovered),
                      queue := Requeue(db), requests := FailRequests(db.requests, started, between),
                      results := FailResults(db.results, db.attempts, started, between, now),
                      attempts := InterruptAttempts(db.attempts, g))
            && held <= db.reservations.Keys
            && (InterruptionFault(db, g)
                == if !Releasable(db.gates, db.scopes, held) then Some(AuditGap)
                   else if exists r :: r in between && r in db.results then Some(DuplicateKey) else None)
  {
    hide Lowered, Settle, Releasable, Requeue, InterruptAttempts, StartedRequests, BetweenAttempts;
    InterruptedTables(db, g, now);
    hide FailRequests, FailResults;
  }

  lemma InterruptFaults(db: Db, g: nat)
    ensures HeldUpTo(db.reservations, g) <= db.reservations.Keys
    ensures InterruptionFault(db, g)
            == if !Releasable(db.gates, db.scopes, HeldUpTo(db.reservations, g)) then Some(AuditGap)
               else if exists r :: r in BetweenAttempts(db) && r in db.results then Some(DuplicateKey) else None
  {
    InterruptIs(db, g, 0);
  }

  lemma InterruptTables(was: Db, after: Db, g: nat, now: Time)
    requires var started, between, held := StartedRequests(was.attempts, g), BetweenAttempts(was), HeldUpTo(was.reservations, g);
             after == was.(gates := Lowered(was.gates, was.scopes, held), reservations := Settle(was.reservations, held, Recovered),
                           queue := Requeue(was), requests := FailRequests(was.requests, started, between),
                           results := FailResults(was.results, was.attempts, started, between, now),
                           attempts := InterruptAttempts(was.attempts, g))
    ensures after == Interrupt(was, g, now)
  {
    InterruptIs(was, g, now);
    hide Interrupt;
  }

  // Validation has made sure that every request with a started attempt can be closed.
  lemma StartedClosable(db: Db, g: nat)
    requires ForeignKeys(db) && RecoveryFault(db, g).None?
    ensures forall r :: r in StartedRequests(db.attempts, g) ==> Queued(db.requests, r) && r !in db.results
    ensures StartedRequests(db.attempts, g) !! BetweenAttempts(db) && BetweenAttempts(db) <= db.requests.Keys
  {
    hide HasReleasedReservation;
    forall r | r in StartedRequests(db.attempts, g)
      ensures Queued(db.requests, r) && r !in db.results
      ensures HasActiveAttempt(db.attempts, r)
    {
      var a :| a in db.attempts && db.attempts[a].state == Started && db.attempts[a].generation <= g && db.attempts[a].request == r;
      assert !Gap(db, a);
    }
  }

  lemma SameRequeue(was: Db, now: Db)
    requires now.requests == was.requests && now.attempts == was.attempts && now.queue == was.queue
    ensures Requeue(now) == Requeue(was)
  {
  }

  lemma SameBetween(was: Db, now: Db, g: nat)
    requires now.attempts == was.attempts && now.requests == FailRequests(was.requests, StartedRequests(was.attempts, g), {})
    ensures BetweenAttempts(now) == BetweenAttempts(was)
  {
    var started := StartedRequests(was.attempts, g);
    forall r | r in started
      ensures HasActiveAttempt(was.attempts, r)
    {
      var a :| a in was.attempts && was.attempts[a].state == Started && was.attempts[a].generation <= g && was.attempts[a].request == r;
    }
    hide StartedRequests;
    forall r | !HasActiveAttempt(was.attempts, r)
      ensures Queued(now.requests, r) <==> Queued(was.requests, r)
    {
    }
    hide HasActiveAttempt, FailRequests;
  }

  lemma SameFault(was: Db, now: Db, g: nat)
    requires now.attempts == was.attempts && now.requests == was.requests && now.results == was.results
    requires now.reservations == was.reservations
    ensures RecoveryFault(now, g) == RecoveryFault(was, g)
  {
    forall a | a in was.attempts
      ensures Gap(now, a) <==> Gap(was, a)
    {
    }
    hide Gap;
  }

  lemma InterruptKeepsReferences(db: Db, g: nat, now: Time)
    requires ForeignKeys(db) && RecoveryFault(db, g).None?
    ensures ForeignKeys(Interrupt(db, g, now))
  {
    StartedClosable(db, g);
    hide Lowered, Settle, HeldUpTo, StartedRequests, BetweenAttempts, RecoveryFault;
    InterruptedTables(db, g, now);
    SameAttempts(db.attempts, g);
  }

  // The takeover of an expired lease, in parts.
  function ExpiredTakenOver(db: Db, owner: Id, now: Time, duration: nat): Tx<Token>
    requires db.lease.Some?
  {
    var g := db.lease.value.generation;
    if RecoveryFault(db, g).Some? then Abort(RecoveryFault(db, g).value)
    else if InterruptionFault(db, g).Some? then Abort(InterruptionFault(db, g).value)
    else match Reconcile(Interrupt(db, g, now), None)
      case Abort(fault) => Abort(fault)
      case Commit(after, _) =>
        Commit(after.(lease := Some(LeaseRow(owner, g + 1, now, now, now + duration, true))), Token(owner, g + 1, now, now + duration))
  }

  lemma RecoverInParts(db: Db, owner: Id, now: Time, duration: nat)
    requires ForeignKeys(db)
    ensures Spec.RecoverLease(db, owner, now, duration)
            == if db.lease.None? || !db.lease.value.active then Abort(LeaseNotFound)
               else if now < db.lease.value.heartbeatAt then Abort(ClockRollback)
               else if now < db.lease.value.expiresAt then Abort(LeaseHeld)
               else ExpiredTakenOver(db, owner, now, duration)
  {
    if db.lease.Some? && RecoveryFault(db, db.lease.value.generation).None? {
      StartedClosable(db, db.lease.value.generation);
    }
    hide Releasable, RecoveryFault, StartedRequests, BetweenAttempts, HeldUpTo, Interrupt, Reconcile;
    if db.lease.Some? {
      var g := db.lease.value.generation;
      assert forall r :: r in StartedRequests(db.attempts, g) + BetweenAttempts(db)
                    <==> r in StartedRequests(db.attempts, g) || r in BetweenAttempts(db);
    }
  }

  // The refusals of an acquisition, before and while the attempt is entered.
  function StartFault(db: Db, attempt: Attempt, keys: Keys, policy: GatePolicy, token: Token, now: Time): Option<Fault> {
    if attempt.generation != token.generation then Some(GenerationMismatch)
    else if Fence(db.lease, token, now).Some? then Fence(db.lease, token, now)
    else if attempt.request !in db.queue || db.queue[attempt.request].state != Dequeued then Some(NotDequeued)
    else if !Queued(db.requests, attempt.request) then Some(RequestNotActive)
    else FirstBlocked(SCOPE_ORDER, db, keys, policy, now)
  }

  ghost function EntryFault(attempts: Attempts, a: Id, attempt: Attempt): Option<Fault> {
    if a !in attempts then
      if attempt.number != NextNumber(attempts, attempt.request) then Some(SequenceRejected) else None
    else if attempts[a].state != Reserved || attempts[a].(rawEligible := false) != attempt.(state := Reserved, rawEligible := false) then
      Some(ReservationMismatch)
    else None
  }

  lemma AcquireInParts(db: Db, v: Id, a: Id, attempt: Attempt, keys: Keys, policy: GatePolicy, token: Token, now: Time)
    ensures var start, entry := StartFault(db, attempt, keys, policy, token, now), EntryFault(db.attempts, a, attempt);
            Spec.AcquireGates(db, v, a, attempt, keys, policy, token, now)
            == if start.Some? then Abort(start.value)
               else if entry.Some? then Abort(entry.value)
               else if v in db.reservations || v in db.scopes || HasReservation(db.reservations, a) then Abort(DuplicateKey)
               else Commit(db.(
                 attempts := if a in db.attempts then db.attempts
                             else db.attempts[a := attempt.(state := Reserved, rawEligible := false)],
                 reservations := db.reservations[v := Reservation(a, attempt.request, token.generation, now, Holding)],
                 scopes := db.scopes[v := keys],
                 gates := Raised(db.gates, KeySet(keys), now), starts := WithStart(db.starts, KeySet(keys), now)), ())
  {
    hide FirstBlocked, NextNumber, Raised, WithStart, KeySet, HasReservation, Fence;
  }

  lemma SettledOne(reservations: Reservations, v: Id, state: ReservationState)
    requires v in reservations
    ensures Settle(reservations, {v}, state) == reservations[v := reservations[v].(state := state)]
  {
  }

  lemma OnlyFirst(rows: set<Id>, at: map<Id, Time>, row: Id)
    requires rows != {} && rows <= at.Keys && row in rows && forall y :: y in rows ==> Before(at, row, y)
    ensures row == First(rows, at)
  {
    assert Before(at, row, First(rows, at)) && Before(at, First(rows, at), row);
  }

  lemma TaskHasEntry(queue: Queue, domain: Id, task: Id)
    requires task in QueuedTasks(queue, domain)
    ensures QueuedOf(queue, domain, task) != {}
  {
    var q :| q in queue && queue[q].domain == domain && queue[q].state == InQueue && queue[q].task == task;
    assert q in QueuedOf(queue, domain, task);
  }

  lemma OnlyGreatest(numbers: set<nat>, greatest: nat)
    requires greatest in numbers && forall y :: y in numbers ==> y <= greatest
    ensures greatest == Greatest(numbers)
  {
    assert Greatest(numbers) in numbers;
  }

  // The least task above the cursor, or the least one if there is none above, is the next.
  lemma OnlyNextTask(tasks: set<Id>, cursor: Option<Id>, task: Id)
    requires task in tasks
    requires if exists x :: x in tasks && (cursor.None? || x > cursor.value)
             then (cursor.None? || task > cursor.value) && forall x :: x in tasks && (cursor.None? || x > cursor.value) ==> task <= x
             else forall x :: x in tasks ==> task <= x
    ensures task == NextTask(tasks, cursor)
  {
    var next := NextTask(tasks, cursor);
    assert next in tasks;
  }

  // Somebody holds the gate of each of these scopes.
  ghost predicate EachHeld(gates: Gates, held: map<Scope, Id>, some: set<Scope>) {
    forall s :: s in some && s in held ==> GateKey(s, held[s]) in gates && gates[GateKey(s, held[s])].active > 0
  }

  lemma NothingDecremented(gates: Gates, held: map<Scope, Id>)
    ensures Decremented(gates, HeldKeys(held, {})) == gates && EachHeld(gates, held, {})
  {
    assert HeldKeys(held, {}) == {};
  }

  // One scope more: its gate is as it was, and decrementing it adds up.
  lemma OneScopeMore(gates: Gates, held: map<Scope, Id>, done: set<Scope>, s: Scope)
    requires s in held && s !in done && done <= held.Keys && EachHeld(gates, held, done)
    ensures var k, decremented := GateKey(s, held[s]), Decremented(gates, HeldKeys(held, done));
            && (k in decremented && decremented[k].active > 0 <==> EachHeld(gates, held, done + {s}))
            && (EachHeld(gates, held, held.Keys) ==> EachHeld(gates, held, done + {s}))
            && (k in decremented && decremented[k].active > 0 ==>
                  Decremented(gates, HeldKeys(held, done + {s})) == decremented[k := decremented[k].(active := decremented[k].active - 1)])
  {
    var k := GateKey(s, held[s]);
    assert k !in HeldKeys(held, done);
    assert HeldKeys(held, done + {s}) == HeldKeys(held, done) + {k};
    if k in gates && gates[k].active > 0 {
      DecrementOne(gates, HeldKeys(held, done), k);
    }
  }

  lemma Unscoped(gates: Gates, scopes: HeldScopes, some: set<Id>, v: Id)
    requires v in some && v !in scopes
    ensures !Releasable(gates, scopes, some)
  {
  }

  lemma Unsettled(reservations: Reservations, some: set<Id>, v: Id, state: ReservationState)
    requires v in reservations && v !in some
    ensures v in Settle(reservations, some, state) && Settle(reservations, some, state)[v] == reservations[v]
  {
  }
}
