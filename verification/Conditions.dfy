/** When each call succeeds, in terms of the rows its caller can look at, and what it then does to them. */
module Conditions {
  import opened Basics
  import opened Tables
  import opened Transactions
  import opened Invariant
  import opened ResultProofs
  import opened AttemptProofs
  import opened EndProofs
  import opened Evolution
  import opened Runs
  import opened Safety
  import opened Effects

  // The stored lease is this copy's, active, and `now` lies in its term.
  ghost predicate InForce(lease: Option<LeaseRow>, token: Token, now: Time) {
    && lease.Some? && lease.value.active && lease.value.owner == token.owner && lease.value.generation == token.generation
    && lease.value.heartbeatAt <= now < lease.value.expiresAt
  }

  lemma FenceIff(lease: Option<LeaseRow>, token: Token, now: Time)
    ensures Fence(lease, token, now).None? <==> InForce(lease, token, now)
  {
  }

  // ---------------------------------------------------------------- leases

  /** A heartbeat succeeds exactly within the term of the caller's own copy, while the stored lease is active and of the same
      owner and generation; the stored term does not matter. The new copy is the caller's with the new term. */
  lemma HeartbeatIff(db: Db, token: Token, now: Time, duration: nat)
    ensures var tx := Heartbeat(db, token, now, duration);
            && (tx.Commit? <==>
                  && token.heartbeatAt <= now < token.expiresAt && db.lease.Some? && db.lease.value.active
                  && db.lease.value.owner == token.owner && db.lease.value.generation == token.generation)
            && (tx.Commit? ==>
                  && tx.value == Token(token.owner, token.generation, now, now + duration)
                  && tx.db == db.(lease := tx.db.lease)
                  && tx.db.lease == Some(LeaseRow(token.owner, token.generation, db.lease.value.acquiredAt, now, now + duration, true)))
  {
  }

  /** A release succeeds exactly when a heartbeat would. */
  lemma ReleaseIff(db: Db, token: Token, now: Time, duration: nat)
    ensures ReleaseLease(db, token, now).Commit? <==> Heartbeat(db, token, now, duration).Commit?
    ensures ReleaseLease(db, token, now).Commit? ==>
              && db.lease.Some?
              && ReleaseLease(db, token, now).db == db.(lease := Some(db.lease.value.(active := false)))
  {
  }

  // ---------------------------------------------------------------- claiming

  /** A claim succeeds exactly under a lease in force, and takes something exactly if something waits in the domain. */
  lemma ClaimIff(db: Db, domain: Id, token: Token, now: Time)
    ensures Claim(db, domain, token, now).Commit? <==> InForce(db.lease, token, now)
    ensures Claim(db, domain, token, now).Commit? ==>
              (Claim(db, domain, token, now).value.Some? <==>
                 exists q :: q in db.queue && db.queue[q].domain == domain && db.queue[q].state == InQueue)
  {
    FenceIff(db.lease, token, now);
    if q :| q in db.queue && db.queue[q].domain == domain && db.queue[q].state == InQueue {
      assert db.queue[q].task in QueuedTasks(db.queue, domain);
    }
    hide NextTask, Fence;
  }

  // ---------------------------------------------------------------- reserving

  /** Reserving succeeds exactly for a queued request none of whose attempts is reserved, started or unknown, and a new
      identifier. The number is one for the first attempt and one more than the greatest otherwise. */
  lemma ReserveIff(db: Db, a: Id, r: Id, token: Token, now: Time)
    ensures var tx := ReserveAttempt(db, a, r, token, now);
            && (tx.Commit? <==>
                  && InForce(db.lease, token, now) && r in db.requests && db.requests[r].state == ReqQueued && a !in db.attempts
                  && forall b :: b in db.attempts && db.attempts[b].request == r ==>
                       db.attempts[b].state != Reserved && db.attempts[b].state != Started && db.attempts[b].state != AttUnknown)
            && (tx.Commit? ==>
                  && tx.value == Attempt(r, tx.value.number, token.generation, now, Reserved, false)
                  && tx.db == db.(attempts := db.attempts[a := tx.value])
                  && IsNext(db.attempts, r, tx.value.number))
  {
    FenceIff(db.lease, token, now);
    NextIs(db.attempts, r);
    hide Fence, NextNumber, IsNext;
  }

  // One more than the greatest number of the request's attempts, or one.
  ghost predicate IsNext(attempts: Attempts, r: Id, number: nat) {
    && 1 <= number
    && (forall b :: b in attempts && attempts[b].request == r ==> attempts[b].number < number)
    && (number != 1 ==> exists b :: b in attempts && attempts[b].request == r && attempts[b].number == number - 1)
  }

  lemma NextIs(attempts: Attempts, r: Id)
    ensures IsNext(attempts, r, NextNumber(attempts, r))
  {
    var numbers := set a | a in attempts && attempts[a].request == r :: attempts[a].number;
    var greatest := Greatest(numbers);
    forall b | b in attempts && attempts[b].request == r
      ensures attempts[b].number <= greatest
    {
      assert attempts[b].number in numbers;
    }
    if greatest != 0 {
      assert greatest in numbers;
    }
  }

  /** Once an attempt of a request has an unknown outcome, no later call reserves another one for it. */
  lemma NeverReservedAgain(steps: seq<Step>, i: nat, j: nat, a: Id)
    requires DisciplinedRun(steps) && i <= j < |steps| && a in At(steps, i).attempts && At(steps, i).attempts[a].state == AttUnknown
    requires steps[j].op.ReserveNext? && steps[j].op.r == At(steps, i).attempts[a].request
    ensures Effect(At(steps, j), steps[j]).None?
  {
    RunEvolves(steps, i, j);
    UnknownStays(At(steps, i), At(steps, j), a);
    ReserveIff(At(steps, j), steps[j].op.a, steps[j].op.r, steps[j].op.token, steps[j].now);
    hide At, ReserveAttempt, Evolves, InForce;
  }

  lemma UnknownStays(before: Db, after: Db, a: Id)
    requires Evolves(before, after) && a in before.attempts && before.attempts[a].state == AttUnknown
    ensures a in after.attempts && after.attempts[a] == before.attempts[a]
  {
    hide ResultsKept, RequestsKept, ConsumersKept, ReservationsKept, StartsKept, CooldownsKept, LeaseKept, HistoryKept;
  }

  // ---------------------------------------------------------------- one attempt

  /** Marking succeeds exactly for a reserved attempt of this generation. */
  lemma MarkIff(db: Db, a: Id, token: Token, now: Time)
    ensures var tx := MarkStarted(db, a, token, now);
            && (tx.Commit? <==>
                  && InForce(db.lease, token, now) && a in db.attempts && db.attempts[a].state == Reserved
                  && db.attempts[a].generation == token.generation)
            && (tx.Commit? ==>
                  tx.db == db.(attempts := db.attempts[a := db.attempts[a].(state := Started)], history := tx.db.history))
  {
    FenceIff(db.lease, token, now);
    hide Fence;
  }

  /** Discarding succeeds exactly for a reserved attempt of this generation that never had a gate reservation. */
  lemma DiscardIff(db: Db, a: Id, token: Token, now: Time)
    ensures var tx := DiscardAttempt(db, a, token, now);
            && (tx.Commit? <==>
                  && InForce(db.lease, token, now) && a in db.attempts && db.attempts[a].state == Reserved
                  && db.attempts[a].generation == token.generation
                  && forall v :: v in db.reservations ==> db.reservations[v].attempt != a)
            && (tx.Commit? ==> tx.db == db.(attempts := db.attempts - {a}))
  {
    FenceIff(db.lease, token, now);
    hide Fence;
  }

  /** Ending succeeds exactly for a reservation this generation still holds, whose record the caller names correctly. */
  lemma FinishIff(db: Db, v: Id, a: Id, r: Id, outcome: Outcome, retryAfter: Option<nat>, raw: bool, token: Token, now: Time)
    requires Inv(db)
    ensures FinishGates(db, v, a, r, outcome, retryAfter, raw, token, now).Commit? <==>
              && InForce(db.lease, token, now) && v in db.reservations && db.reservations[v].state == Holding
              && db.reservations[v].attempt == a && db.reservations[v].request == r && db.reservations[v].generation == token.generation
  {
    FenceIff(db.lease, token, now);
    hide Inv, FinishGates, Fence, InForce;
    if FinishGates(db, v, a, r, outcome, retryAfter, raw, token, now).Commit? {
      FinishGuard(db, v, a, r, outcome, retryAfter, raw, token, now);
    }
    if Fence(db.lease, token, now).None? {
      FinishTotal(db, v, a, r, outcome, retryAfter, raw, token, now);
    }
  }

  // ---------------------------------------------------------------- finalising

  // What the attempts of `r` must be like for it to end in this way.
  ghost predicate Allow(attempts: Attempts, r: Id, kind: ResultKind) {
    && (forall b :: b in attempts && attempts[b].request == r ==> attempts[b].state != Reserved && attempts[b].state != Started)
    && (kind == OutSucceeded ==> EndsInSuccess(attempts, r))
    && (kind == OutUnknown ==> exists a :: a in attempts && attempts[a].request == r && attempts[a].state == AttUnknown)
  }

  lemma AllowIff(attempts: Attempts, r: Id, kind: ResultKind)
    ensures AttemptFault(attempts, r, kind).None? <==> Allow(attempts, r, kind)
  {
  }

  /** Finalising succeeds exactly for a queued leader whose attempts are all over and allow the outcome: a success needs a
      succeeded last attempt and no unknown one, an unknown outcome an unknown attempt, the others nothing more. */
  lemma FinalizeIff(db: Db, r: Id, result: Result, token: Token, now: Time)
    requires Inv(db)
    ensures Finalize(db, r, result, token, now).Commit? <==>
              && InForce(db.lease, token, now) && r in db.requests && db.requests[r].state == ReqQueued
              && r in db.consumers && db.consumers[r].role == Leader && Allow(db.attempts, r, result.kind)
  {
    FenceIff(db.lease, token, now);
    AllowIff(db.attempts, r, result.kind);
    hide Inv, Finalize, Fence, InForce, AttemptFault, Allow;
    FinalizeTotal(db, r, result, token, now);
  }

  // ---------------------------------------------------------------- gates

  // This gate lets a start through.
  ghost predicate LetsThrough(gate: Gate, starts: seq<Time>, limit: Limit, now: Time) {
    && (gate.cooldown.Some? ==> gate.cooldown.value <= now)
    && gate.active < limit.maxConcurrency
    && (gate.lastStarted.Some? ==> gate.lastStarted.value + limit.minInterval <= now)
    && |Recent(starts, now - limit.window)| < limit.perWindow
  }

  // The starts after the beginning of the window.
  ghost function Recent(starts: seq<Time>, from: Time): set<int> {
    set i: int | 0 <= i < |starts| && from < starts[i]
  }

  // The first of the four checks that fails gives the reason.
  ghost predicate Refuses(gate: Gate, starts: seq<Time>, limit: Limit, now: Time, reason: BlockReason) {
    var cool := gate.cooldown.Some? ==> gate.cooldown.value <= now;
    var free := gate.active < limit.maxConcurrency;
    var rested := gate.lastStarted.Some? ==> gate.lastStarted.value + limit.minInterval <= now;
    match reason
    case InCooldown => !cool
    case Concurrency => cool && !free
    case MinimumInterval => cool && free && !rested
    case RollingWindow => cool && free && rested && limit.perWindow <= |Recent(starts, now - limit.window)|
  }

  lemma {:induction false} RecentCount(starts: seq<Time>, from: Time)
    ensures CountAfter(starts, from) == |Recent(starts, from)|
  {
    if starts != [] {
      var front, last := starts[..|starts| - 1], |starts| - 1;
      RecentCount(front, from);
      assert Recent(starts, from) == Recent(front, from) + if from < starts[last] then {last} else {};
    }
  }

  lemma BlockedIff(gate: Gate, starts: seq<Time>, limit: Limit, now: Time)
    ensures Blocked(gate, starts, limit, now).None? <==> LetsThrough(gate, starts, limit, now)
    ensures forall reason :: Blocked(gate, starts, limit, now) == Some(reason) <==> Refuses(gate, starts, limit, now, reason)
  {
    RecentCount(starts, now - limit.window);
    hide CountAfter, Recent;
  }

  // The row of a gate and its starts; a gate without a row was never used.
  ghost function RowOf(gates: Gates, k: GateKey): Gate {
    if k in gates then gates[k] else Gate(0, None, None)
  }

  ghost function TimesOf(starts: Starts, k: GateKey): seq<Time> {
    if k in starts then starts[k] else []
  }

  // The gate of this scope lets the start through.
  ghost predicate ScopePasses(db: Db, keys: Keys, policy: GatePolicy, now: Time, s: Scope) {
    && s in keys && s in policy
    && LetsThrough(RowOf(db.gates, GateKey(s, keys[s])), TimesOf(db.starts, GateKey(s, keys[s])), policy[s], now)
  }

  ghost predicate ScopeRefuses(db: Db, keys: Keys, policy: GatePolicy, now: Time, s: Scope, reason: BlockReason) {
    && s in keys && s in policy
    && Refuses(RowOf(db.gates, GateKey(s, keys[s])), TimesOf(db.starts, GateKey(s, keys[s])), policy[s], now, reason)
  }

  /** A start passes exactly if each of the eight scopes lets it through: no cooldown to wait for, a free place, the minimum
      interval since the last start over, and fewer starts within the window than allowed. Otherwise the first scope, from
      global to role, that does not is reported, with the first of these that fails. */
  lemma PassIff(db: Db, keys: Keys, policy: GatePolicy, now: Time)
    ensures FirstBlocked(SCOPE_ORDER, db, keys, policy, now).None? <==> forall s: Scope :: ScopePasses(db, keys, policy, now, s)
    ensures FirstBlocked(SCOPE_ORDER, db, keys, policy, now).Some? ==>
              exists i, reason ::
                && 0 <= i < 8 && FirstBlocked(SCOPE_ORDER, db, keys, policy, now) == Some(GateBlocked(SCOPE_ORDER[i], reason))
                && ScopeRefuses(db, keys, policy, now, SCOPE_ORDER[i], reason)
                && forall j :: 0 <= j < i ==> ScopePasses(db, keys, policy, now, SCOPE_ORDER[j])
  {
    FirstRefusal(SCOPE_ORDER, db, keys, policy, now);
    hide ScopePasses, ScopeRefuses, FirstBlocked;
    forall s: Scope
      ensures s in SCOPE_ORDER
    {
      ScopeListed(s);
    }
    if FirstBlocked(SCOPE_ORDER, db, keys, policy, now).Some? {
      var i, reason :| 0 <= i < |SCOPE_ORDER| && FirstRefusalAt(SCOPE_ORDER, db, keys, policy, now, i, reason);
      RefusedNotPassed(db, keys, policy, now, SCOPE_ORDER[i], reason);
    }
  }

  ghost predicate FirstRefusalAt(order: seq<Scope>, db: Db, keys: Keys, policy: GatePolicy, now: Time, i: int, reason: BlockReason)
    requires 0 <= i < |order|
  {
    && FirstBlocked(order, db, keys, policy, now) == Some(GateBlocked(order[i], reason))
    && ScopeRefuses(db, keys, policy, now, order[i], reason)
    && forall j :: 0 <= j < i ==> ScopePasses(db, keys, policy, now, order[j])
  }

  lemma RefusedNotPassed(db: Db, keys: Keys, policy: GatePolicy, now: Time, s: Scope, reason: BlockReason)
    requires ScopeRefuses(db, keys, policy, now, s, reason)
    ensures !ScopePasses(db, keys, policy, now, s)
  {
  }

  lemma {:induction false} FirstRefusal(order: seq<Scope>, db: Db, keys: Keys, policy: GatePolicy, now: Time)
    ensures FirstBlocked(order, db, keys, policy, now).None? ==> forall s :: s in order ==> ScopePasses(db, keys, policy, now, s)
    ensures FirstBlocked(order, db, keys, policy, now).Some? ==>
              exists i, reason :: 0 <= i < |order| && FirstRefusalAt(order, db, keys, policy, now, i, reason)
  {
    hide Blocked, LetsThrough, Refuses;
    if order != [] {
      var s, rest := order[0], order[1..];
      EveryScope(s);
      BlockedIff(GateOf(db.gates, GateKey(s, keys[s])), StartsOf(db.starts, GateKey(s, keys[s])), policy[s], now);
      FirstRefusal(rest, db, keys, policy, now);
      if Blocked(GateOf(db.gates, GateKey(s, keys[s])), StartsOf(db.starts, GateKey(s, keys[s])), policy[s], now).Some? {
        var reason := Blocked(GateOf(db.gates, GateKey(s, keys[s])), StartsOf(db.starts, GateKey(s, keys[s])), policy[s], now).value;
        assert FirstRefusalAt(order, db, keys, policy, now, 0, reason);
      } else if FirstBlocked(rest, db, keys, policy, now).Some? {
        var i, reason :| 0 <= i < |rest| && FirstRefusalAt(rest, db, keys, policy, now, i, reason);
        assert forall j :: 0 < j < i + 1 ==> order[j] == rest[j - 1];
        assert FirstRefusalAt(order, db, keys, policy, now, i + 1, reason);
      }
    }
  }

  // The attempt is new, with the next number of its request, or it is the reserved row the caller names.
  ghost predicate Enters(attempts: Attempts, a: Id, attempt: Attempt) {
    if a !in attempts then IsNext(attempts, attempt.request, attempt.number)
    else
      && attempts[a].state == Reserved && attempts[a].request == attempt.request && attempts[a].number == attempt.number
      && attempts[a].generation == attempt.generation && attempts[a].createdAt == attempt.createdAt
  }

  /** Acquiring succeeds exactly for a claimed, still queued request of this generation whose start passes all gates, with a
      new reservation for an attempt that enters and has none. */
  lemma AcquireIff(db: Db, v: Id, a: Id, attempt: Attempt, keys: Keys, policy: GatePolicy, token: Token, now: Time)
    requires Inv(db)
    ensures AcquireGates(db, v, a, attempt, keys, policy, token, now).Commit? <==>
              && InForce(db.lease, token, now) && attempt.generation == token.generation
              && attempt.request in db.queue && db.queue[attempt.request].state == Dequeued
              && attempt.request in db.requests && db.requests[attempt.request].state == ReqQueued
              && (forall s: Scope :: ScopePasses(db, keys, policy, now, s))
              && Enters(db.attempts, a, attempt)
              && v !in db.reservations && forall w :: w in db.reservations ==> db.reservations[w].attempt != a
  {
    hide Inv, Fence, InForce, FirstBlocked, ScopePasses, NextNumber, AcquireGates, Enters, HasReservation;
    FenceIff(db.lease, token, now);
    PassIff(db, keys, policy, now);
    SameScopes(db);
    EntersIff(db.attempts, a, attempt);
    ReservationIff(db.reservations, a);
    AcquireCommits(db, v, a, attempt, keys, policy, token, now);
  }

  lemma AcquireCommits(db: Db, v: Id, a: Id, attempt: Attempt, keys: Keys, policy: GatePolicy, token: Token, now: Time)
    ensures AcquireGates(db, v, a, attempt, keys, policy, token, now).Commit? <==>
              && Fence(db.lease, token, now).None? && attempt.generation == token.generation
              && attempt.request in db.queue && db.queue[attempt.request].state == Dequeued && Queued(db.requests, attempt.request)
              && FirstBlocked(SCOPE_ORDER, db, keys, policy, now).None?
              && (a !in db.attempts ==> attempt.number == NextNumber(db.attempts, attempt.request))
              && (a in db.attempts ==>
                    && db.attempts[a].state == Reserved
                    && db.attempts[a].(rawEligible := false) == attempt.(state := Reserved, rawEligible := false))
              && v !in db.reservations && v !in db.scopes && !HasReservation(db.reservations, a)
  {
    hide Fence, FirstBlocked, NextNumber, HasReservation, Raised, WithStart, KeySet;
  }

  lemma EntersIff(attempts: Attempts, a: Id, attempt: Attempt)
    ensures Enters(attempts, a, attempt) <==>
              && (a !in attempts ==> attempt.number == NextNumber(attempts, attempt.request))
              && (a in attempts ==>
                    && attempts[a].state == Reserved
                    && attempts[a].(rawEligible := false) == attempt.(state := Reserved, rawEligible := false))
  {
    OnlyNext(attempts, attempt.request, attempt.number);
    hide IsNext, NextNumber;
  }

  lemma ReservationIff(reservations: Reservations, a: Id)
    ensures HasReservation(reservations, a) <==> !forall w :: w in reservations ==> reservations[w].attempt != a
  {
  }

  lemma SameScopes(db: Db)
    requires Inv(db)
    ensures db.scopes.Keys == db.reservations.Keys
  {
    hide RequestsOk, ConsumersOk, FlightsOk, QueueOk, OwnersOk, AttemptsOk, OneActive, Accounting, HoldingsOk, StartsOk, SuccessOk,
         EpisodesOk, SendersOk, LeadersQueued;
  }

  lemma OnlyNext(attempts: Attempts, r: Id, number: nat)
    ensures IsNext(attempts, r, number) <==> number == NextNumber(attempts, r)
  {
    NextIs(attempts, r);
    hide NextNumber;
  }

  // What an acquisition makes of the gate `k`.
  ghost predicate GateTaken(before: Db, after: Db, keys: Keys, k: GateKey, now: Time) {
    var gate, taken := RowOf(before.gates, k), RowOf(after.gates, k);
    if k.scope in keys && keys[k.scope] == k.alias then
      taken == Gate(gate.active + 1, Some(now), gate.cooldown) && TimesOf(after.starts, k) == TimesOf(before.starts, k) + [now]
    else taken == gate && TimesOf(after.starts, k) == TimesOf(before.starts, k)
  }

  /** An acquisition takes exactly its eight gates, with one start recorded on each and cooldowns as they were; it adds one
      reservation, and the attempt if it is new; no other row changes. */
  lemma AcquireAffects(db: Db, v: Id, a: Id, attempt: Attempt, keys: Keys, policy: GatePolicy, token: Token, now: Time)
    requires AcquireGates(db, v, a, attempt, keys, policy, token, now).Commit?
    ensures var after := AcquireGates(db, v, a, attempt, keys, policy, token, now).db;
            && after == db.(attempts := after.attempts, reservations := after.reservations, scopes := after.scopes, gates := after.gates,
                            starts := after.starts)
            && after.attempts == (if a in db.attempts then db.attempts
                                  else db.attempts[a := attempt.(state := Reserved, rawEligible := false)])
            && after.reservations == db.reservations[v := Reservation(a, attempt.request, token.generation, now, Holding)]
            && after.scopes == db.scopes[v := keys]
            && forall k :: GateTaken(db, after, keys, k, now)
  {
    AcquireFacts(db, v, a, attempt, keys, policy, token, now);
    hide AcquireGates, FirstBlocked, NextNumber, HasReservation, GateTaken;
    var after := AcquireGates(db, v, a, attempt, keys, policy, token, now).db;
    forall k
      ensures GateTaken(db, after, keys, k, now)
    {
      TakenAt(db, after, keys, k, now);
    }
  }

  lemma TakenAt(before: Db, after: Db, keys: Keys, k: GateKey, now: Time)
    requires after.gates == Raised(before.gates, KeySet(keys), now) && after.starts == WithStart(before.starts, KeySet(keys), now)
    ensures GateTaken(before, after, keys, k, now)
  {
    EveryScope(k.scope);
    if k.scope in keys && keys[k.scope] == k.alias {
      assert GateKey(k.scope, keys[k.scope]) in KeySet(keys);
    }
  }
}
