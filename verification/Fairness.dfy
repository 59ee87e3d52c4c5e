/** Claiming is fair between the tasks of a rate domain. */
module Fairness {
  import opened Basics
  import opened Tables
  import opened Transactions
  import opened Invariant
  import opened ResultProofs
  import opened AttemptProofs
  import opened Runs
  import opened Limits

  // Going round from `from`, the position `x` comes before `to`.
  ghost predicate RoundBefore(from: Id, x: Id, to: Id) {
    if from < to then from <= x < to else from <= x || x < to
  }

  /** One turn of the round robin: the task chosen lies after the cursor, and not beyond a task that is waiting. */
  lemma Turn(tasks: set<Id>, cursor: Id, waiting: Id, first: Id)
    requires waiting in tasks && first != waiting && RoundBefore(first, cursor, waiting)
    ensures var t := NextTask(tasks, Some(cursor));
            t == waiting || (t != first && RoundBefore(first, t, waiting))
  {
    hide NextTask;
    var t := NextTask(tasks, Some(cursor));
    assert (forall x :: x in tasks ==> x <= cursor) ==> t <= waiting;
  }

  // Step `s` claims an entry of task `t` in this domain.
  ghost predicate ClaimsTask(db: Db, s: Step, domain: Id, t: Id) {
    && s.op.ClaimNext? && s.op.domain == domain && Effect(db, s).Some?
    && var claimed := Claim(db, domain, s.op.token, s.now).value;
    && claimed.Some? && claimed.value in db.queue && db.queue[claimed.value].task == t
  }

  lemma ClaimTurn(db: Db, s: Step, domain: Id, t: Id)
    requires ClaimsTask(db, s, domain, t)
    ensures Next(db, s).cursors == db.cursors[domain := t]
    ensures QueuedTasks(db.queue, domain) != {} && t == NextTask(QueuedTasks(db.queue, domain), Lookup(db.cursors, domain))
  {
    ClaimPicks(db, domain, s.op.token, s.now);
    hide NextTask;
  }

  lemma IdleClaim(db: Db, domain: Id, token: Token, now: Time)
    requires Claim(db, domain, token, now).Commit? && Claim(db, domain, token, now).value.None?
    ensures Claim(db, domain, token, now).db == db
  {
  }

  lemma AcquireCursors(db: Db, s: Step)
    requires s.op.Acquire? && Effect(db, s).Some?
    ensures Next(db, s).cursors == db.cursors
  {
    hide AcquireGates, FirstBlocked, Raised, WithStart, KeySet;
    AcquireFacts(db, s.op.v, s.op.a, s.op.attempt, s.op.keys, s.op.policy, s.op.token, s.now);
  }

  /** The cursor of a domain moves only when one of its entries is claimed. */
  lemma CursorRests(db: Db, s: Step, domain: Id)
    requires Inv(db) && forall t :: !ClaimsTask(db, s, domain, t)
    ensures Lookup(Next(db, s).cursors, domain) == Lookup(db.cursors, domain)
  {
    if s.op.ClaimNext? && Effect(db, s).Some? {
      ClaimCursor(db, s, domain);
    } else if s.op.Acquire? && Effect(db, s).Some? {
      hide Inv, Effect, ClaimsTask;
      AcquireCursors(db, s);
    } else {
      hide Inv, ClaimsTask;
      if Effect(db, s).Some? {
        OnlyAcquireRaises(db, s);
      }
    }
  }

  lemma ClaimCursor(db: Db, s: Step, domain: Id)
    requires s.op.ClaimNext? && Effect(db, s).Some? && forall t :: !ClaimsTask(db, s, domain, t)
    ensures Lookup(Next(db, s).cursors, domain) == Lookup(db.cursors, domain)
  {
    hide Claim;
    var token := s.op.token;
    if Claim(db, s.op.domain, token, s.now).value.Some? {
      ClaimPicks(db, s.op.domain, token, s.now);
      var r := Claim(db, s.op.domain, token, s.now).value.value;
      assert s.op.domain == domain ==> ClaimsTask(db, s, domain, db.queue[r].task);
    } else {
      IdleClaim(db, s.op.domain, token, s.now);
    }
  }

  // Task `waiting` has a queued entry from state `p` to state `q`.
  ghost predicate WaitsThroughout(steps: seq<Step>, p: nat, q: nat, domain: Id, waiting: Id)
    requires p <= q <= |steps|
  {
    forall k :: p <= k <= q ==> waiting in QueuedTasks(At(steps, k).queue, domain)
  }

  ghost predicate ClaimedAt(steps: seq<Step>, m: nat, domain: Id, t: Id)
    requires m < |steps|
  {
    ClaimsTask(At(steps, m), steps[m], domain, t)
  }

  // Until `waiting` is claimed the cursor stays between `first` and it.
  lemma {:induction false} CursorBetween(steps: seq<Step>, p: nat, q: nat, domain: Id, first: Id, waiting: Id)
    requires DisciplinedRun(steps) && p < q <= |steps| && first != waiting
    requires WaitsThroughout(steps, p, q, domain, waiting) && ClaimedAt(steps, p, domain, first)
    requires forall m :: p < m < q ==> !ClaimedAt(steps, m, domain, waiting)
    ensures domain in At(steps, q).cursors && RoundBefore(first, At(steps, q).cursors[domain], waiting)
  {
    hide Inv, At, Next, Disciplined, NextTask, ClaimsTask, RoundBefore;
    var m := q - 1;
    AtNext(steps, m);
    if p == m {
      ClaimTurn(At(steps, p), steps[p], domain, first);
      RoundStarts(first, waiting);
    } else {
      CursorBetween(steps, p, m, domain, first, waiting);
      if t :| ClaimsTask(At(steps, m), steps[m], domain, t) {
        ClaimTurn(At(steps, m), steps[m], domain, t);
        Turn(QueuedTasks(At(steps, m).queue, domain), At(steps, m).cursors[domain], waiting, first);
        assert !ClaimedAt(steps, m, domain, waiting);
      } else {
        RunInv(steps, m);
        CursorRests(At(steps, m), steps[m], domain);
      }
    }
  }

  lemma RoundStarts(first: Id, waiting: Id)
    requires first != waiting
    ensures RoundBefore(first, first, waiting)
  {
  }

  /** Fair claiming: while a task has a queued entry in a domain, no other task of the domain is claimed twice
      without a claim of the waiting task in between, whatever is admitted, cancelled, promoted or recovered meanwhile. */
  lemma NoTaskClaimedTwice(steps: seq<Step>, p: nat, q: nat, domain: Id, first: Id, waiting: Id)
    requires DisciplinedRun(steps) && p < q < |steps| && first != waiting
    requires WaitsThroughout(steps, p, q, domain, waiting)
    requires ClaimedAt(steps, p, domain, first) && ClaimedAt(steps, q, domain, first)
    ensures exists m :: p < m < q && ClaimedAt(steps, m, domain, waiting)
  {
    hide Inv, At, Next, Disciplined, NextTask, ClaimsTask, RoundBefore;
    if forall m :: p < m < q ==> !ClaimedAt(steps, m, domain, waiting) {
      CursorBetween(steps, p, q, domain, first, waiting);
      ClaimTurn(At(steps, q), steps[q], domain, first);
      Turn(QueuedTasks(At(steps, q).queue, domain), At(steps, q).cursors[domain], waiting, first);
      assert false;
    }
  }

  /** Every claimed request is the live leader of an active flight, unfinished, and never sent before. */
  lemma ClaimedIsLeader(steps: seq<Step>, m: nat)
    requires DisciplinedRun(steps) && m < |steps| && steps[m].op.ClaimNext? && Effect(At(steps, m), steps[m]).Some?
    ensures var db := At(steps, m);
            var claimed := Claim(db, steps[m].op.domain, steps[m].op.token, steps[m].now).value;
            claimed.Some? ==>
              && claimed.value in db.consumers && db.consumers[claimed.value].fingerprint in db.flights
              && db.flights[db.consumers[claimed.value].fingerprint] == Flight(claimed.value, true)
              && Queued(db.requests, claimed.value) && claimed.value !in db.results
              && AttemptsOf(db.attempts, claimed.value) == {}
  {
    hide Inv, At, Claim, Disciplined;
    RunInv(steps, m);
    ClaimKeepsInv(At(steps, m), steps[m].op.domain, steps[m].op.token, steps[m].now);
  }
}
