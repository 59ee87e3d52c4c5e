/** What other parties may do while one party is between two of its calls, and what of its attempt survives that. */
module Interleaving {
  import opened Basics
  import opened Tables
  import opened Transactions
  import opened Invariant
  import opened AttemptProofs
  import opened Evolution
  import opened Runs
  import opened Drivers

  // The tables after these calls, made on the tables `db`.
  ghost function RunFrom(db: Db, steps: seq<Step>): Db {
    if steps == [] then db else Next(RunFrom(db, steps[..|steps| - 1]), steps[|steps| - 1])
  }

  ghost predicate DisciplinedFrom(db: Db, steps: seq<Step>) {
    forall i :: 0 <= i < |steps| ==> Disciplined(RunFrom(db, steps[..i]), steps[i])
  }

  lemma DisciplinedPrefix(db: Db, steps: seq<Step>)
    requires DisciplinedFrom(db, steps) && steps != []
    ensures DisciplinedFrom(db, steps[..|steps| - 1])
    ensures Disciplined(RunFrom(db, steps[..|steps| - 1]), steps[|steps| - 1])
  {
    hide Disciplined, RunFrom;
    var shorter := steps[..|steps| - 1];
    forall i | 0 <= i < |shorter|
      ensures Disciplined(RunFrom(db, shorter[..i]), shorter[i])
    {
      assert shorter[..i] == steps[..i];
    }
  }

  /** Disciplined calls keep the invariant and undo nothing that is final. */
  lemma {:induction false} RunFromHolds(db: Db, steps: seq<Step>)
    requires Inv(db) && DisciplinedFrom(db, steps)
    ensures Inv(RunFrom(db, steps)) && Evolves(db, RunFrom(db, steps))
  {
    hide Inv, Evolves, Next, Disciplined, DisciplinedFrom;
    if steps == [] {
      Unchanged(db);
    } else {
      var before, last := RunFrom(db, steps[..|steps| - 1]), steps[|steps| - 1];
      DisciplinedPrefix(db, steps);
      RunFromHolds(db, steps[..|steps| - 1]);
      StepKeepsInvIff(before, last);
      StepEvolves(before, last);
      EvolvesTransitive(db, before, Next(before, last));
    }
  }

  // ---------------------------------------------------------------- an attempt on the gates

  // The reservation `v` was made for this attempt under this generation.
  ghost predicate ReservedFor(db: Db, v: Id, a: Id, r: Id, g: nat) {
    && v in db.reservations && db.reservations[v].attempt == a && db.reservations[v].request == r
    && db.reservations[v].generation == g
  }

  // As long as the generation lasts and the attempt is unsent, it holds its gates.
  ghost predicate Anchored(db: Db, v: Id, a: Id, r: Id, g: nat) {
    && ReservedFor(db, v, a, r, g)
    && g <= GenerationOf(db.lease)
    && (g == GenerationOf(db.lease) && a in db.attempts && db.attempts[a].state == Reserved ==> HasHoldingReservation(db.reservations, a))
  }

  // A call takes the gates of no attempt that is still unsent afterwards.
  lemma HoldingsSurvive(db: Db, s: Step, a: Id)
    requires Inv(db) && Effect(db, s).Some? && !s.op.TakeOver? && HasHoldingReservation(db.reservations, a)
    requires a in Next(db, s).attempts && Next(db, s).attempts[a].state == Reserved
    ensures HasHoldingReservation(Next(db, s).reservations, a)
  {
    hide Inv, HasHoldingReservation, Effect, Next;
    var r := Next(db, s).attempts[a].request;
    if FromElsewhere(s.op) {
      ElsewhereQuiet(db, s, r);
    } else {
      WorkSurvives(db, s, a);
    }
  }

  lemma WorkSurvives(db: Db, s: Step, a: Id)
    requires Inv(db) && Effect(db, s).Some? && !FromElsewhere(s.op) && HasHoldingReservation(db.reservations, a)
    requires a in Next(db, s).attempts && Next(db, s).attempts[a].state == Reserved
    ensures HasHoldingReservation(Next(db, s).reservations, a)
  {
    hide Inv, HasHoldingReservation, Claim, AcquireGates, FinishGates, Finalize, ReserveAttempt, DiscardAttempt, MarkStarted;
    match s.op
    case ClaimNext(domain, token) => ClaimReservations(db, domain, token, s.now);
    case ReserveNext(b, r, token) => ReserveFacts(db, b, r, token, s.now);
    case Acquire(_, _, _, _, _, _) => MoreHeld(db, s, a);
    case Start(b, token) => OneAttemptReservations(db, b, token, s.now);
    case Discard(b, token) => OneAttemptReservations(db, b, token, s.now);
    case FinalizeRequest(q, result, token) => FinalizeRows(db, q, result, token, s.now, q);
    case Finish(_, _, _, _, _, _, _) =>
      FinishRows(db, s);
      if s.op.a != a {
        OneReservation(db, s.op.v, a);
      }
  }

  lemma ClaimReservations(db: Db, domain: Id, token: Token, now: Time)
    requires Claim(db, domain, token, now).Commit?
    ensures Claim(db, domain, token, now).db.reservations == db.reservations
  {
  }

  lemma OneAttemptReservations(db: Db, b: Id, token: Token, now: Time)
    ensures MarkStarted(db, b, token, now).Commit? ==> MarkStarted(db, b, token, now).db.reservations == db.reservations
    ensures DiscardAttempt(db, b, token, now).Commit? ==> DiscardAttempt(db, b, token, now).db.reservations == db.reservations
  {
  }

  lemma MoreHeld(db: Db, s: Step, a: Id)
    requires s.op.Acquire? && Effect(db, s).Some? && HasHoldingReservation(db.reservations, a)
    ensures HasHoldingReservation(Next(db, s).reservations, a)
  {
    AcquireFacts(db, s.op.v, s.op.a, s.op.attempt, s.op.keys, s.op.policy, s.op.token, s.now);
    hide AcquireGates, FirstBlocked, Raised, WithStart, KeySet, NextNumber, HasReservation;
    var w :| w in db.reservations && db.reservations[w].attempt == a && db.reservations[w].state == Holding;
    assert w in Next(db, s).reservations && Next(db, s).reservations[w] == db.reservations[w];
  }

  lemma AnchoredStep(db: Db, s: Step, v: Id, a: Id, r: Id, g: nat)
    requires Inv(db) && Inv(Next(db, s)) && Anchored(db, v, a, r, g)
    ensures Anchored(Next(db, s), v, a, r, g)
  {
    hide Inv, HasHoldingReservation, Effect;
    StepEvolves(db, s);
    EvolvedRows(db, Next(db, s), v);
    if Effect(db, s).Some? && g == GenerationOf(Next(db, s).lease) {
      if s.op.TakeOver? {
        TakeOverGeneration(db, s);
      } else if a in Next(db, s).attempts && Next(db, s).attempts[a].state == Reserved {
        SameAttemptReserved(db, s, v, a);
        hide Next;
        HoldingsSurvive(db, s, a);
      }
    }
  }

  lemma EvolvedRows(before: Db, after: Db, v: Id)
    requires Evolves(before, after) && v in before.reservations
    ensures v in after.reservations && after.reservations[v].attempt == before.reservations[v].attempt
    ensures after.reservations[v].request == before.reservations[v].request
    ensures after.reservations[v].generation == before.reservations[v].generation
    ensures GenerationOf(before.lease) <= GenerationOf(after.lease)
  {
    hide ResultsKept, RequestsKept, ConsumersKept, AttemptsKept, StartsKept, CooldownsKept, HistoryKept;
  }

  // An attempt with a reservation that is unsent now was unsent before.
  lemma SameAttemptReserved(db: Db, s: Step, v: Id, a: Id)
    requires Inv(db) && v in db.reservations && db.reservations[v].attempt == a
    requires a in Next(db, s).attempts && Next(db, s).attempts[a].state == Reserved
    ensures a in db.attempts && db.attempts[a].state == Reserved
  {
    hide RequestsOk, ConsumersOk, FlightsOk, QueueOk, OwnersOk, AttemptsOk, OneActive, Accounting, HoldingsOk, StartsOk, SuccessOk,
         EpisodesOk, SendersOk, LeadersQueued, Next;
    StepEvolves(db, s);
  }

  lemma {:induction false} AnchoredStays(db: Db, steps: seq<Step>, v: Id, a: Id, r: Id, g: nat)
    requires Inv(db) && DisciplinedFrom(db, steps) && Anchored(db, v, a, r, g)
    ensures Anchored(RunFrom(db, steps), v, a, r, g)
  {
    hide Inv, Next, Disciplined, DisciplinedFrom, Anchored;
    if steps != [] {
      var before, last := RunFrom(db, steps[..|steps| - 1]), steps[|steps| - 1];
      DisciplinedPrefix(db, steps);
      RunFromHolds(db, steps[..|steps| - 1]);
      AnchoredStays(db, steps[..|steps| - 1], v, a, r, g);
      StepKeepsInvIff(before, last);
      AnchoredStep(before, last, v, a, r, g);
    }
  }

  /** The one reservation of an attempt is held exactly while the attempt is live, once the attempt is started. */
  lemma StartedIffHolding(db: Db, v: Id, a: Id, r: Id, g: nat)
    requires Inv(db) && ReservedFor(db, v, a, r, g) && a in db.attempts && db.attempts[a].state != Reserved
    ensures db.attempts[a].state == Started <==> db.reservations[v].state == Holding
  {
    hide RequestsOk, ConsumersOk, FlightsOk, QueueOk, OwnersOk, AttemptsOk, OneActive, Accounting, StartsOk, SuccessOk,
         EpisodesOk, SendersOk, LeadersQueued, HasReleasedReservation;
  }
}
