/** Rate and concurrency limits over whole runs. */
module Limits {
  import opened Basics
  import opened Tables
  import opened Transactions
  import opened Invariant
  import opened GateProofs
  import opened FlightProofs
  import opened AttemptProofs
  import opened CancelProofs
  import opened RecoveryProofs
  import opened Evolution
  import opened Runs

  // ---------------------------------------------------------------- which steps touch the gates

  // Step `s` puts an attempt on gate key `k`.
  ghost predicate Acquires(db: Db, s: Step, k: GateKey) {
    s.op.Acquire? && Effect(db, s).Some? && HoldsKey(s.op.keys, k)
  }

  // No count rises and no start is recorded.
  ghost predicate GatesRest(before: Db, after: Db) {
    && after.starts == before.starts
    && forall k :: ActiveCount(after.gates, k) <= ActiveCount(before.gates, k)
  }

  lemma LoweredRests(gates: Gates, scopes: HeldScopes, some: set<Id>, k: GateKey)
    ensures ActiveCount(Lowered(gates, scopes, some), k) <= ActiveCount(gates, k)
  {
  }

  lemma CooledRests(gates: Gates, k: GateKey, deadline: Time, j: GateKey)
    ensures ActiveCount(CoolDown(gates, k, deadline), j) == ActiveCount(gates, j)
  {
  }

  lemma SameGatesRest(before: Db, after: Db)
    requires after.starts == before.starts && after.gates == before.gates
    ensures GatesRest(before, after)
  {
  }

  lemma LoweredGatesRest(before: Db, after: Db, some: set<Id>)
    requires after.starts == before.starts && after.gates == Lowered(before.gates, before.scopes, some)
    ensures GatesRest(before, after)
  {
    hide Lowered, ActiveCount;
    forall k {
      LoweredRests(before.gates, before.scopes, some, k);
    }
  }

  lemma FinishRests(db: Db, v: Id, a: Id, r: Id, outcome: Outcome, retryAfter: Option<nat>, raw: bool, token: Token, now: Time)
    requires FinishGates(db, v, a, r, outcome, retryAfter, raw, token, now).Commit?
    ensures GatesRest(db, FinishGates(db, v, a, r, outcome, retryAfter, raw, token, now).db)
    ensures FinishGates(db, v, a, r, outcome, retryAfter, raw, token, now).db.cursors == db.cursors
  {
    hide Lowered, Settle, CoolDown, Releasable, ActiveCount;
    var lowered := Lowered(db.gates, db.scopes, {v});
    forall k ensures ActiveCount(FinishGates(db, v, a, r, outcome, retryAfter, raw, token, now).db.gates, k) <= ActiveCount(db.gates, k) {
      LoweredRests(db.gates, db.scopes, {v}, k);
      if retryAfter.Some? {
        CooledRests(lowered, GateKey(Provider, db.scopes[v][Provider]), now + retryAfter.value, k);
      }
    }
  }

  lemma CancelRests(db: Db, r: Id, reason: Id, token: Token, now: Time)
    requires Inv(db) && Cancel(db, r, reason, token, now).Commit?
    ensures GatesRest(db, Cancel(db, r, reason, token, now).db)
    ensures Cancel(db, r, reason, token, now).db.cursors == db.cursors
  {
    hide Inv, Fence, CancelLeader, ReplaceLeader, SentCancelled, Replaced, NextLeader, MayHaveBeenSent, Freed, Leave, GatesRest, Close;
    CancelGuard(db, r, reason, token, now);
    CancelTotal(db, r, reason, token, now);
    var fp := db.consumers[r].fingerprint;
    if db.consumers[r].role == Follower {
      FollowerGates(db, r, reason, now);
    } else {
      CancelLeaderBranches(db, r, reason, now);
      if MayHaveBeenSent(db.attempts, r) {
        SentGates(db, r, fp, reason, now);
      } else {
        LeaderIsQueued(db, r);
        NextFollower(db.consumers, fp);
        ReplacedIs(db, r, reason, now);
        ReplacedGates(db, r, fp, NextLeader(db.consumers, fp), reason, now);
      }
    }
  }

  lemma FollowerGates(db: Db, r: Id, reason: Id, now: Time)
    ensures GatesRest(db, Close(db, {r}, CancelResult(OutCancelled, now, reason)).(consumers := Leave(db.consumers, {r})))
    ensures Close(db, {r}, CancelResult(OutCancelled, now, reason)).(consumers := Leave(db.consumers, {r})).cursors == db.cursors
  {
    SameGatesRest(db, Close(db, {r}, CancelResult(OutCancelled, now, reason)).(consumers := Leave(db.consumers, {r})));
  }

  lemma SentGates(db: Db, r: Id, fp: Id, reason: Id, now: Time)
    requires fp in db.flights
    ensures GatesRest(db, SentCancelled(db, r, fp, reason, now))
    ensures SentCancelled(db, r, fp, reason, now).cursors == db.cursors
  {
    hide Lowered, Settle, EndLive, CloseRequests, CloseResults, Leave, GatesRest, WaitingSet;
    LoweredGatesRest(db, SentCancelled(db, r, fp, reason, now), HeldByRequest(db.reservations, r));
  }

  lemma ReplacedGates(db: Db, r: Id, fp: Id, next: Option<Id>, reason: Id, now: Time)
    requires fp in db.flights && r in db.queue && (next.Some? ==> next.value in db.consumers && next.value in db.requests)
    ensures GatesRest(db, Replaced(db, r, fp, next, reason, now))
    ensures Replaced(db, r, fp, next, reason, now).cursors == db.cursors
  {
    hide Lowered, Settle, EndLive, CloseRequests, CloseResults, Leave, GatesRest;
    LoweredGatesRest(db, Replaced(db, r, fp, next, reason, now), HeldByRequest(db.reservations, r));
  }

  lemma RecoverRests(db: Db, owner: Id, now: Time, duration: nat)
    requires Inv(db) && RecoverLease(db, owner, now, duration).Commit?
    ensures GatesRest(db, RecoverLease(db, owner, now, duration).db)
    ensures RecoverLease(db, owner, now, duration).db.cursors == db.cursors
  {
    hide Inv, RecoverLease, InterruptAttempts, RequeuedOnly;
    RecoverGuard(db, owner, now, duration);
    RecoverTotal(db, owner, now, duration);
    RecoverCursors(db, owner, now, duration);
  }

  lemma RecoverCursors(db: Db, owner: Id, now: Time, duration: nat)
    requires Inv(db) && RecoverLease(db, owner, now, duration).Commit?
    ensures RecoverLease(db, owner, now, duration).db.cursors == db.cursors
  {
    hide Inv, RecoverLease, Reconcile, Deliver, LeaderFinished, Lowered, Settle, Requeue, InterruptAttempts;
    var g := GenerationOf(db.lease);
    var interrupted := Interrupt(db, g, now);
    var done := set fp | fp in interrupted.flights && interrupted.flights[fp].active && LeaderFinished(interrupted, fp);
    RecoverIs(db, owner, now, duration);
    ReconcileFrame(interrupted, done);
    DeliverFrame(interrupted, done);
  }

  lemma AdmitRests(db: Db, r: Id, task: Id, fp: Id, domain: Id, token: Token, now: Time, limits: QueuePolicy)
    requires Inv(db) && Admit(db, r, task, fp, domain, token, now, limits).Commit?
    ensures GatesRest(db, Admit(db, r, task, fp, domain, token, now, limits).db)
    ensures Admit(db, r, task, fp, domain, token, now, limits).db.cursors == db.cursors
  {
    hide Inv, Admit, Fence, GatesRest, JoinFlight, OpenFlight, ActiveCount, SameGatesAndCursors;
    AdmitGuard(db, r, task, fp, domain, token, now, limits);
    AdmitBranches(db, r, task, fp, domain, token, now, limits);
    var added := db.(requests := db.requests[r := Request(task, fp, ReqQueued)]);
    if fp in db.flights && db.flights[fp].active {
      JoinGates(added, r, fp, domain, now);
    } else {
      OpenGates(added, r, task, fp, domain, now, limits);
    }
    AddedRests(db, added, Admit(db, r, task, fp, domain, token, now, limits).db);
  }

  lemma AddedRests(db: Db, added: Db, after: Db)
    requires added == db.(requests := added.requests) && SameGatesAndCursors(added, after)
    ensures GatesRest(db, after) && after.cursors == db.cursors
  {
  }

  lemma JoinGates(db: Db, r: Id, fp: Id, domain: Id, now: Time)
    requires fp in db.flights
    ensures JoinFlight(db, r, fp, domain, now).Commit? ==> SameGatesAndCursors(db, JoinFlight(db, r, fp, domain, now).db)
  {
  }

  lemma OpenGates(db: Db, r: Id, task: Id, fp: Id, domain: Id, now: Time, limits: QueuePolicy)
    ensures OpenFlight(db, r, task, fp, domain, now, limits).Commit? ==>
              SameGatesAndCursors(db, OpenFlight(db, r, task, fp, domain, now, limits).db)
  {
    hide QueueFull, CloseRequests, CloseResults, OpenFlight;
    if OpenFlight(db, r, task, fp, domain, now, limits).Commit? {
      if QueueFull(db.queue, domain, task, limits) {
        RejectedTables(db, r, task, fp, domain, now, limits);
      } else {
        OpenedTables(db, r, task, fp, domain, now, limits);
      }
    }
  }

  lemma FinalizeRests(db: Db, r: Id, result: Result, token: Token, now: Time)
    requires Finalize(db, r, result, token, now).Commit?
    ensures GatesRest(db, Finalize(db, r, result, token, now).db)
    ensures Finalize(db, r, result, token, now).db.cursors == db.cursors
  {
    hide Finalize, GatesRest;
    FinalizeGates(db, r, result, token, now);
    SameGatesRest(db, Finalize(db, r, result, token, now).db);
  }

  lemma FinalizeGates(db: Db, r: Id, result: Result, token: Token, now: Time)
    requires Finalize(db, r, result, token, now).Commit?
    ensures var after := Finalize(db, r, result, token, now).db;
            after.gates == db.gates && after.starts == db.starts && after.cursors == db.cursors
  {
    hide Close, Deliver, Deliverable, AttemptFault, Fence, Queued;
    CloseFrame(db, {r}, result);
    if r in db.consumers {
      DeliverFrame(Close(db, {r}, result), {db.consumers[r].fingerprint});
    }
  }

  lemma CloseFrame(db: Db, closed: set<Id>, result: Result)
    ensures var after := Close(db, closed, result);
            && after.gates == db.gates && after.starts == db.starts && after.cursors == db.cursors && after.consumers == db.consumers
            && after.flights == db.flights
  {
    hide CloseRequests, CloseResults;
  }

  lemma OtherRests(db: Db, s: Step)
    requires Inv(db) && Effect(db, s).Some?
    requires s.op.TakeLease? || s.op.Beat? || s.op.GiveUp? || s.op.ClaimNext? || s.op.ReserveNext? || s.op.Discard? || s.op.Start?
    ensures GatesRest(db, Next(db, s))
    ensures !s.op.ClaimNext? ==> Next(db, s).cursors == db.cursors
  {
    hide Inv, AcquireLease, Claim, ReserveAttempt, DiscardAttempt, MarkStarted, Heartbeat, ReleaseLease, GatesRest;
    match s.op {
      case TakeLease(owner, duration) => AcquireLeaseTotal(db, owner, s.now, duration);
      case Beat(token, duration) => LeaseGates(db, token, s.now, duration);
      case GiveUp(token) => LeaseGates(db, token, s.now, 0);
      case ClaimNext(domain, token) => ClaimGates(db, domain, token, s.now);
      case ReserveNext(a, r, token) => ReserveFacts(db, a, r, token, s.now);
      case Discard(a, token) => AttemptGates(db, a, token, s.now);
      case Start(a, token) => AttemptGates(db, a, token, s.now);
    }
    SameGatesRest(db, Next(db, s));
  }

  ghost predicate SameGateTables(before: Db, after: Db) {
    after.gates == before.gates && after.starts == before.starts
  }

  ghost predicate SameGatesAndCursors(before: Db, after: Db) {
    SameGateTables(before, after) && after.cursors == before.cursors
  }

  lemma LeaseGates(db: Db, token: Token, now: Time, duration: nat)
    ensures Heartbeat(db, token, now, duration).Commit? ==> SameGatesAndCursors(db, Heartbeat(db, token, now, duration).db)
    ensures ReleaseLease(db, token, now).Commit? ==> SameGatesAndCursors(db, ReleaseLease(db, token, now).db)
  {
  }

  lemma ClaimGates(db: Db, domain: Id, token: Token, now: Time)
    ensures Claim(db, domain, token, now).Commit? ==> SameGateTables(db, Claim(db, domain, token, now).db)
  {
  }

  lemma AttemptGates(db: Db, a: Id, token: Token, now: Time)
    ensures DiscardAttempt(db, a, token, now).Commit? ==> SameGatesAndCursors(db, DiscardAttempt(db, a, token, now).db)
    ensures MarkStarted(db, a, token, now).Commit? ==> SameGatesAndCursors(db, MarkStarted(db, a, token, now).db)
  {
  }

  /** Only an acquisition raises a count or records a start. */
  lemma OnlyAcquireRaises(db: Db, s: Step)
    requires Inv(db) && !(s.op.Acquire? && Effect(db, s).Some?)
    ensures GatesRest(db, Next(db, s))
    ensures !s.op.ClaimNext? ==> Next(db, s).cursors == db.cursors
  {
    if Effect(db, s).Some? {
      hide Inv, AcquireLease, RecoverLease, Admit, Cancel, Claim, AcquireGates, FinishGates, Finalize, ReserveAttempt, DiscardAttempt,
           MarkStarted, Heartbeat, ReleaseLease, GatesRest;
      match s.op
      case TakeOver(owner, duration) => RecoverRests(db, owner, s.now, duration);
      case AdmitRequest(r, task, fp, domain, token, limits) => AdmitRests(db, r, task, fp, domain, token, s.now, limits);
      case CancelRequest(r, reason, token) => CancelRests(db, r, reason, token, s.now);
      case Finish(v, a, r, outcome, retryAfter, raw, token) => FinishRests(db, v, a, r, outcome, retryAfter, raw, token, s.now);
      case FinalizeRequest(r, result, token) => FinalizeRests(db, r, result, token, s.now);
      case _ => OtherRests(db, s);
    } else {
      SameGatesRest(db, db);
    }
  }

  /** What an acquisition does on one of its keys, and what it found there. */
  lemma AcquireOn(db: Db, s: Step, k: GateKey)
    requires s.op.Acquire? && Effect(db, s).Some?
    ensures var after := Next(db, s);
            if HoldsKey(s.op.keys, k) then
              && k.scope in s.op.policy
              && Blocked(GateOf(db.gates, k), StartsOf(db.starts, k), s.op.policy[k.scope], s.now).None?
              && StartsOf(after.starts, k) == StartsOf(db.starts, k) + [s.now]
              && ActiveCount(after.gates, k) == ActiveCount(db.gates, k) + 1
            else
              && StartsOf(after.starts, k) == StartsOf(db.starts, k)
              && ActiveCount(after.gates, k) == ActiveCount(db.gates, k)
  {
    hide AcquireGates, FirstBlocked, Blocked, KeySet;
    AcquireFacts(db, s.op.v, s.op.a, s.op.attempt, s.op.keys, s.op.policy, s.op.token, s.now);
    InKeySet(s.op.keys, k);
    if HoldsKey(s.op.keys, k) {
      AdmittedGate(db, s.op.keys, s.op.policy, s.now, k);
    }
    OneKeyRaised(db.gates, db.starts, KeySet(s.op.keys), s.now, k);
  }

  lemma OneKeyRaised(gates: Gates, starts: Starts, some: set<GateKey>, now: Time, k: GateKey)
    ensures StartsOf(WithStart(starts, some, now), k) == if k in some then StartsOf(starts, k) + [now] else StartsOf(starts, k)
    ensures ActiveCount(Raised(gates, some, now), k) == ActiveCount(gates, k) + if k in some then 1 else 0
  {
  }

  // ---------------------------------------------------------------- the times at which a key was acquired

  /** Clock readings of all acquisitions of `k` in the run, in order of commit. */
  ghost function AcquiredAt(steps: seq<Step>, k: GateKey): seq<Time> {
    if steps == [] then []
    else
      var before := steps[..|steps| - 1];
      var s := steps[|steps| - 1];
      AcquiredAt(before, k) + if Acquires(Run(before), s, k) then [s.now] else []
  }

  /** The start table records exactly the acquisitions, none lost by any recovery. */
  lemma {:induction false} StartTableComplete(steps: seq<Step>, k: GateKey)
    requires DisciplinedRun(steps)
    ensures StartsOf(Run(steps).starts, k) == AcquiredAt(steps, k)
  {
    hide Inv, Effect, GatesRest, Next, Disciplined;
    if steps != [] {
      var before := steps[..|steps| - 1];
      var s := steps[|steps| - 1];
      PrefixDisciplined(steps, |steps| - 1);
      StartTableComplete(before, k);
      if s.op.Acquire? && Effect(Run(before), s).Some? {
        AcquireOn(Run(before), s, k);
      } else {
        RunInv(steps, |steps| - 1);
        OnlyAcquireRaises(Run(before), s);
        RestingStarts(Run(before), Next(Run(before), s));
      }
    }
  }

  lemma RestingStarts(before: Db, after: Db)
    requires GatesRest(before, after)
    ensures after.starts == before.starts
  {
  }

  // Every acquisition of `k` in the run is made under the same limit.
  ghost predicate FixedLimit(steps: seq<Step>, k: GateKey, limit: Limit) {
    forall i :: 0 <= i < |steps| && steps[i].op.Acquire? && HoldsKey(steps[i].op.keys, k) ==>
      k.scope in steps[i].op.policy && steps[i].op.policy[k.scope] == limit
  }

  // Start `i` leaves room in the window that ends with it, and keeps its distance from the one before.
  ghost predicate SpacedAt(times: seq<Time>, limit: Limit, i: nat)
    requires i < |times|
  {
    && CountAfter(times[..i + 1], times[i] - limit.window) <= limit.perWindow
    && (i > 0 ==> times[i - 1] + limit.minInterval <= times[i])
  }

  ghost predicate Spaced(times: seq<Time>, limit: Limit) {
    forall i :: 0 <= i < |times| ==> SpacedAt(times, limit, i)
  }

  lemma SpacedInFront(front: seq<Time>, times: seq<Time>, limit: Limit, i: nat)
    requires front <= times && i < |front|
    ensures SpacedAt(front, limit, i) <==> SpacedAt(times, limit, i)
  {
    assert front[..i + 1] == times[..i + 1];
  }

  lemma OneMore(times: seq<Time>, now: Time, cutoff: Time)
    ensures CountAfter(times + [now], cutoff) == CountAfter(times, cutoff) + if now > cutoff then 1 else 0
  {
    assert (times + [now])[..|times|] == times;
  }

  lemma SpacedAppend(times: seq<Time>, limit: Limit, now: Time)
    requires Spaced(times, limit)
    requires CountAfter(times, now - limit.window) < limit.perWindow
    requires times != [] ==> times[|times| - 1] + limit.minInterval <= now
    ensures Spaced(times + [now], limit)
  {
    hide SpacedAt, CountAfter;
    var all := times + [now];
    forall i | 0 <= i < |all|
      ensures SpacedAt(all, limit, i)
    {
      if i < |times| {
        SpacedInFront(times, all, limit, i);
      } else {
        SpacedLast(times, limit, now);
      }
    }
  }

  lemma SpacedLast(times: seq<Time>, limit: Limit, now: Time)
    requires CountAfter(times, now - limit.window) < limit.perWindow
    requires times != [] ==> times[|times| - 1] + limit.minInterval <= now
    ensures SpacedAt(times + [now], limit, |times|)
  {
    hide CountAfter;
    assert (times + [now])[..|times| + 1] == times + [now];
    OneMore(times, now, now - limit.window);
  }

  lemma LastStart(db: Db, k: GateKey)
    requires Inv(db)
    ensures var times := StartsOf(db.starts, k);
            && Nondecreasing(times)
            && GateOf(db.gates, k).lastStarted == if times == [] then None else Some(times[|times| - 1])
  {
    hide RequestsOk, ConsumersOk, FlightsOk, QueueOk, OwnersOk, AttemptsOk, OneActive, ReservationsOk, Accounting,
         HoldingsOk, SuccessOk, EpisodesOk, SendersOk, LeadersQueued;
  }

  lemma AllowedStart(gate: Gate, starts: seq<Time>, limit: Limit, now: Time)
    requires Blocked(gate, starts, limit, now).None?
    ensures gate.cooldown.Some? ==> gate.cooldown.value <= now
    ensures gate.active < limit.maxConcurrency
    ensures gate.lastStarted.Some? ==> gate.lastStarted.value + limit.minInterval <= now
    ensures CountAfter(starts, now - limit.window) < limit.perWindow
  {
  }

  lemma {:induction false} RunSpaced(steps: seq<Step>, k: GateKey, limit: Limit)
    requires DisciplinedRun(steps) && FixedLimit(steps, k, limit)
    ensures Spaced(AcquiredAt(steps, k), limit)
  {
    hide Inv, Effect, Spaced, Blocked, Next, Disciplined, CountAfter;
    if steps == [] {
      SpacedEmpty(limit);
    } else {
      var before := steps[..|steps| - 1];
      var s := steps[|steps| - 1];
      PrefixDisciplined(steps, |steps| - 1);
      RunSpaced(before, k, limit);
      if Acquires(Run(before), s, k) {
        RunInv(steps, |steps| - 1);
        AcquireOn(Run(before), s, k);
        LastStart(Run(before), k);
        StartTableComplete(before, k);
        AllowedStart(GateOf(Run(before).gates, k), StartsOf(Run(before).starts, k), limit, s.now);
        SpacedAppend(AcquiredAt(before, k), limit, s.now);
      } else {
        assert AcquiredAt(steps, k) == AcquiredAt(before, k);
      }
    }
  }

  lemma SpacedEmpty(limit: Limit)
    ensures Spaced([], limit)
  {
  }

  // Starts in the half-open window (from, to].
  function CountIn(times: seq<Time>, from: Time, to: Time): nat {
    if times == [] then 0
    else CountIn(times[..|times| - 1], from, to)
         + (if from < times[|times| - 1] <= to then 1 else 0)
  }

  lemma {:induction false} CountInAtMost(times: seq<Time>, from: Time, to: Time, cutoff: Time)
    requires cutoff <= from
    ensures CountIn(times, from, to) <= CountAfter(times, cutoff)
  {
    if times != [] {
      CountInAtMost(times[..|times| - 1], from, to, cutoff);
    }
  }

  lemma {:induction false} SpacedWindows(times: seq<Time>, limit: Limit, to: Time)
    requires Nondecreasing(times) && Spaced(times, limit)
    ensures CountIn(times, to - limit.window, to) <= limit.perWindow
  {
    if times != [] {
      var last := times[|times| - 1];
      if last <= to {
        assert times[..|times|] == times;
        assert SpacedAt(times, limit, |times| - 1);
        CountInAtMost(times, to - limit.window, to, last - limit.window);
      } else {
        var front := times[..|times| - 1];
        forall i | 0 <= i < |front|
          ensures SpacedAt(front, limit, i)
        {
          SpacedInFront(front, times, limit, i);
        }
        SpacedWindows(front, limit, to);
      }
    }
  }

  /** Sliding-window safety: under a fixed limit, no window of its length over the whole history holds more starts
      than it allows. Clock readings may go backwards; workers may crash and be recovered. */
  lemma WindowSafety(steps: seq<Step>, k: GateKey, limit: Limit, to: Time)
    requires DisciplinedRun(steps) && FixedLimit(steps, k, limit)
    ensures CountIn(AcquiredAt(steps, k), to - limit.window, to) <= limit.perWindow
  {
    hide Inv, Run, Disciplined;
    RunSpaced(steps, k, limit);
    RunOrdered(steps, k);
    SpacedWindows(AcquiredAt(steps, k), limit, to);
  }

  /** Starts on a key never go back in time, even when the clock readings do. */
  lemma RunOrdered(steps: seq<Step>, k: GateKey)
    requires DisciplinedRun(steps)
    ensures Nondecreasing(AcquiredAt(steps, k))
  {
    hide Inv, Run, Disciplined;
    assert steps[..|steps|] == steps;
    RunInv(steps, |steps|);
    LastStart(Run(steps), k);
    StartTableComplete(steps, k);
  }

  /** Consecutive starts on a key are at least the minimum interval apart. */
  lemma IntervalSafety(steps: seq<Step>, k: GateKey, limit: Limit, i: nat)
    requires DisciplinedRun(steps) && FixedLimit(steps, k, limit) && 0 < i < |AcquiredAt(steps, k)|
    ensures AcquiredAt(steps, k)[i - 1] + limit.minInterval <= AcquiredAt(steps, k)[i]
  {
    hide Inv, Run, Disciplined, CountAfter;
    RunSpaced(steps, k, limit);
    assert SpacedAt(AcquiredAt(steps, k), limit, i);
  }

  /** Under a fixed limit a key is never held by more reservations than its maximum concurrency. */
  lemma {:induction false} ConcurrencySafety(steps: seq<Step>, k: GateKey, limit: Limit)
    requires DisciplinedRun(steps) && FixedLimit(steps, k, limit)
    ensures |Holders(HeldBy(Run(steps).reservations), Run(steps).scopes, k)| <= limit.maxConcurrency
  {
    hide Inv, Effect, Blocked, Next, Disciplined, GatesRest, ActiveCount, Holders;
    assert steps[..|steps|] == steps;
    RunInv(steps, |steps|);
    Counted(Run(steps), k);
    if steps != [] {
      var before := steps[..|steps| - 1];
      var s := steps[|steps| - 1];
      PrefixDisciplined(steps, |steps| - 1);
      ConcurrencySafety(before, k, limit);
      RunInv(steps, |steps| - 1);
      Counted(Run(before), k);
      if s.op.Acquire? && Effect(Run(before), s).Some? {
        AcquireOn(Run(before), s, k);
        if HoldsKey(s.op.keys, k) {
          AllowedStart(GateOf(Run(before).gates, k), StartsOf(Run(before).starts, k), limit, s.now);
          CountIs(Run(before).gates, k);
        }
      } else {
        OnlyAcquireRaises(Run(before), s);
        RestingCount(Run(before), Next(Run(before), s), k);
      }
    } else {
      EmptyCount(k);
    }
  }

  lemma EmptyCount(k: GateKey)
    ensures ActiveCount(EMPTY_DB.gates, k) == 0
  {
  }

  lemma CountIs(gates: Gates, k: GateKey)
    ensures ActiveCount(gates, k) == GateOf(gates, k).active
  {
  }

  lemma RestingCount(before: Db, after: Db, k: GateKey)
    requires GatesRest(before, after)
    ensures ActiveCount(after.gates, k) <= ActiveCount(before.gates, k)
  {
  }

  /** The stored count of a key is the number of reservations that hold it. */
  lemma Counted(db: Db, k: GateKey)
    requires Inv(db)
    ensures ActiveCount(db.gates, k) == |Holders(HeldBy(db.reservations), db.scopes, k)|
  {
    hide RequestsOk, ConsumersOk, FlightsOk, QueueOk, OwnersOk, AttemptsOk, OneActive, ReservationsOk,
         HoldingsOk, StartsOk, SuccessOk, EpisodesOk, SendersOk, LeadersQueued;
  }

  // ---------------------------------------------------------------- cooldowns

  // Step `i` ends an attempt on provider key `k` with a retry-after of `delay`.
  ghost predicate Cools(db: Db, s: Step, k: GateKey, delay: nat) {
    && s.op.Finish? && Effect(db, s).Some? && s.op.retryAfter == Some(delay)
    && s.op.v in db.scopes && k.scope == Provider && HoldsKey(db.scopes[s.op.v], k)
  }

  lemma CooledGate(db: Db, s: Step, k: GateKey, delay: nat)
    requires Inv(db) && Cools(db, s, k, delay)
    ensures k in Next(db, s).gates && Next(db, s).gates[k].cooldown.Some? && s.now + delay <= Next(db, s).gates[k].cooldown.value
  {
    hide RequestsOk, ConsumersOk, FlightsOk, QueueOk, OwnersOk, AttemptsOk, OneActive, ReservationsOk, Accounting,
         HoldingsOk, StartsOk, SuccessOk, EpisodesOk, SendersOk, LeadersQueued, Lowered, Settle, Releasable;
    LoweredKeepsTimes(db.gates, db.scopes, {s.op.v});
    HeldGate(db.gates, db.scopes, s.op.v, k);
  }

  lemma HeldGate(gates: Gates, scopes: HeldScopes, v: Id, k: GateKey)
    requires v in scopes && HoldsKey(scopes[v], k)
    ensures Releasable(gates, scopes, {v}) ==> k in gates
  {
    assert GateKey(k.scope, scopes[v][k.scope]) == k;
  }

  lemma CooldownLater(before: Db, after: Db, k: GateKey)
    requires Evolves(before, after) && k in before.gates && before.gates[k].cooldown.Some?
    ensures k in after.gates && after.gates[k].cooldown.Some? && before.gates[k].cooldown.value <= after.gates[k].cooldown.value
  {
  }

  /** No start falls inside a provider cooldown: after a retry-after, no later acquisition of that provider key
      happens at a clock reading before its deadline, across crashes and recoveries. */
  lemma CooldownSafety(steps: seq<Step>, i: nat, j: nat, k: GateKey, delay: nat)
    requires DisciplinedRun(steps) && i < j < |steps|
    requires Cools(At(steps, i), steps[i], k, delay) && Acquires(At(steps, j), steps[j], k)
    ensures steps[i].now + delay <= steps[j].now
  {
    hide Inv, At, Evolves, Blocked, Effect, Next, Disciplined, HoldsKey;
    RunInv(steps, i);
    CooledGate(At(steps, i), steps[i], k, delay);
    AtNext(steps, i);
    RunEvolves(steps, i + 1, j);
    CooldownLater(At(steps, i + 1), At(steps, j), k);
    AcquireOn(At(steps, j), steps[j], k);
    AllowedStart(GateOf(At(steps, j).gates, k), StartsOf(At(steps, j).starts, k), steps[j].op.policy[k.scope], steps[j].now);
  }
}
