/**
What each repository transaction does to the tables: either it commits new tables,
or it aborts and leaves them alone. Row-by-row loops of the repository appear here
as one change of the whole table.
*/
module Transactions {
  import opened Basics
  import opened Tables

  datatype Fault =
    | StaleLease | ClockRollback | LeaseExpired | LeaseHeld | ReconciliationRequired | LeaseNotFound
    | DuplicateKey | FlightInconsistent | ScopeMismatch | ConsumerNotActive | NotCancellable
    | InFlightCancellation | GateInconsistent | AuditGap | GenerationAnomaly
    | GenerationMismatch | NotDequeued | RequestNotActive | GateBlocked(scope: Scope, reason: BlockReason)
    | SequenceRejected | ReservationMismatch | StaleReservation
    | AttemptUnknown | AttemptAlreadyActive | DiscardRejected | TransitionRejected
    | LeaderRequired | ActiveAttempt | SuccessInvalid | UnknownMissing

  datatype BlockReason = InCooldown | Concurrency | MinimumInterval | RollingWindow

  datatype Tx<+T> = Commit(db: Db, value: T) | Abort(fault: Fault)

  // ---------------------------------------------------------------- lease

  /** The fence every mutation passes: owner, generation and clock against the stored lease. */
  function Fence(lease: Option<LeaseRow>, token: Token, now: Time): Option<Fault> {
    if lease.None? || !lease.value.active || lease.value.owner != token.owner
       || lease.value.generation != token.generation then Some(StaleLease)
    else if now < lease.value.heartbeatAt then Some(ClockRollback)
    else if lease.value.expiresAt <= now then Some(LeaseExpired)
    else None
  }

  ghost function AcquireLease(db: Db, owner: Id, now: Time, duration: nat): Tx<Token> {
    if db.lease.Some? && db.lease.value.active then
      if now < db.lease.value.heartbeatAt then Abort(ClockRollback)
      else if now < db.lease.value.expiresAt then Abort(LeaseHeld)
      else Abort(ReconciliationRequired)
    else
      var generation := GenerationOf(db.lease) + 1;
      var leased := db.(lease := Some(LeaseRow(owner, generation, now, now, now + duration, true)));
      match Reconcile(leased, None)
      case Abort(fault) => Abort(fault)
      case Commit(after, _) => Commit(after, Token(owner, generation, now, now + duration))
  }

  /** The caller's copy decides the clock checks; only owner and generation are compared with the row. */
  function Heartbeat(db: Db, token: Token, now: Time, duration: nat): Tx<Token> {
    if now < token.heartbeatAt then Abort(ClockRollback)
    else if token.expiresAt <= now then Abort(LeaseExpired)
    else if db.lease.None? || !db.lease.value.active || db.lease.value.owner != token.owner
            || db.lease.value.generation != token.generation then Abort(StaleLease)
    else Commit(db.(lease := Some(db.lease.value.(heartbeatAt := now, expiresAt := now + duration))),
                token.(heartbeatAt := now, expiresAt := now + duration))
  }

  function ReleaseLease(db: Db, token: Token, now: Time): Tx<()> {
    if now < token.heartbeatAt then Abort(ClockRollback)
    else if token.expiresAt <= now then Abort(LeaseExpired)
    else if db.lease.None? || !db.lease.value.active || db.lease.value.owner != token.owner
            || db.lease.value.generation != token.generation then Abort(StaleLease)
    else Commit(db.(lease := Some(db.lease.value.(active := false))), ())
  }

  // ---------------------------------------------------------------- results

  /** Give every request of `closed` the same result and the state that goes with it. */
  function CloseRequests(requests: Requests, closed: set<Id>, kind: ResultKind): Requests {
    map r | r in requests ::
      if r in closed then requests[r].(state := StateOf(kind)) else requests[r]
  }

  function CloseResults(results: Results, closed: set<Id>, result: Result): Results {
    map r | r in results.Keys + closed :: if r in results then results[r] else result
  }

  predicate Queued(requests: Requests, r: Id) {
    r in requests && requests[r].state == ReqQueued
  }

  // A request that can take its one result: still queued, and the result row is free.
  predicate Closable(db: Db, r: Id) {
    Queued(db.requests, r) && r !in db.results
  }

  function Close(db: Db, closed: set<Id>, result: Result): Db {
    db.(requests := CloseRequests(db.requests, closed, result.kind),
        results := CloseResults(db.results, closed, result))
  }

  // ---------------------------------------------------------------- attempts of one request

  function AttemptsOf(attempts: Attempts, r: Id): set<Id> {
    set a | a in attempts && attempts[a].request == r
  }

  predicate HasActiveAttempt(attempts: Attempts, r: Id) {
    exists a :: a in attempts && attempts[a].request == r && IsActive(attempts[a].state)
  }

  predicate HasUnknownAttempt(attempts: Attempts, r: Id) {
    exists a :: a in attempts && attempts[a].request == r && attempts[a].state == AttUnknown
  }

  // Some attempt reached a terminal state, so the request may have been sent.
  predicate HasSentAttempt(attempts: Attempts, r: Id) {
    exists a :: a in attempts && attempts[a].request == r && !IsActive(attempts[a].state)
  }

  predicate LastSucceeded(attempts: Attempts, r: Id) {
    exists a :: a in attempts && attempts[a].request == r && attempts[a].state == AttSucceeded
      && forall b :: b in attempts && attempts[b].request == r ==> attempts[b].number <= attempts[a].number
  }

  /** The attempts of `r` support an outcome of this kind. */
  function AttemptFault(attempts: Attempts, r: Id, kind: ResultKind): Option<Fault> {
    if HasActiveAttempt(attempts, r) then Some(ActiveAttempt)
    else if kind == OutSucceeded && (!LastSucceeded(attempts, r) || HasUnknownAttempt(attempts, r)) then Some(SuccessInvalid)
    else if kind == OutUnknown && !HasUnknownAttempt(attempts, r) then Some(UnknownMissing)
    else None
  }

  function Numbers(attempts: Attempts): map<Id, Time> {
    map a | a in attempts :: attempts[a].number
  }

  ghost function NextNumber(attempts: Attempts, r: Id): nat {
    Greatest(set a | a in attempts && attempts[a].request == r :: attempts[a].number) + 1
  }

  function ActiveAttempts(attempts: Attempts, r: Id): set<Id> {
    set a | a in attempts && attempts[a].request == r && IsActive(attempts[a].state)
  }

  /** The first reserved or started attempt of `r` in sequence order. */
  ghost function FirstActive(attempts: Attempts, r: Id): Option<Id> {
    var active := ActiveAttempts(attempts, r);
    if active == {} then None else Some(First(active, Numbers(attempts)))
  }

  // ---------------------------------------------------------------- gates

  predicate HoldsKey(held: map<Scope, Id>, k: GateKey) {
    k.scope in held && held[k.scope] == k.alias
  }

  /** The reservations among `some` that hold gate key `k`. */
  function Holders(some: set<Id>, scopes: HeldScopes, k: GateKey): set<Id> {
    set v | v in some && v in scopes && HoldsKey(scopes[v], k)
  }

  function HeldBy(reservations: Reservations): set<Id> {
    set v | v in reservations && reservations[v].state == Holding
  }

  function HeldByRequest(reservations: Reservations, r: Id): set<Id> {
    set v | v in reservations && reservations[v].state == Holding && reservations[v].request == r
  }

  /** Every one of these reservations has its eight scopes, and each count can go down that often. */
  predicate Releasable(gates: Gates, scopes: HeldScopes, some: set<Id>) {
    && (forall v :: v in some ==> v in scopes && |scopes[v]| == 8)
    && (forall v, s :: v in some && v in scopes && s in scopes[v] ==>
          var k := GateKey(s, scopes[v][s]);
          k in gates && |Holders(some, scopes, k)| <= gates[k].active)
  }

  function Lowered(gates: Gates, scopes: HeldScopes, some: set<Id>): Gates {
    map k | k in gates ::
      var n := |Holders(some, scopes, k)|;
      if n <= gates[k].active then gates[k].(active := gates[k].active - n) else gates[k]
  }

  function Settle(reservations: Reservations, some: set<Id>, state: ReservationState): Reservations {
    map v | v in reservations ::
      if v in some then reservations[v].(state := state) else reservations[v]
  }

  // ---------------------------------------------------------------- delivery of a leader's result

  predicate LeaderInPlace(db: Db, fp: Id) {
    && fp in db.flights && db.flights[fp].active
    && var leader := db.flights[fp].leader;
    && leader in db.consumers && leader in db.requests
    && db.consumers[leader].role == Leader && db.consumers[leader].state == Active
  }

  predicate Waiting(consumers: Consumers, fp: Id, r: Id) {
    r in consumers && consumers[r].fingerprint == fp && consumers[r].state == Active
  }

  /** Every active consumer can receive: audited, in its proper role, and a follower has no attempt. */
  predicate Deliverable(db: Db, fp: Id) {
    && LeaderInPlace(db, fp)
    && var leader := db.flights[fp].leader;
    && db.consumers[leader].fingerprint == fp
    && (forall r :: r in db.consumers && Waiting(db.consumers, fp, r) && r in db.requests ==>
          && db.requests[r].fingerprint == fp
          && r in db.audited
          && (db.consumers[r].role == Leader <==> r == leader)
          && (r != leader ==> AttemptsOf(db.attempts, r) == {} && Closable(db, r)))
  }

  /** The active consumers of these flights, each with the leader whose result it receives. */
  function Receivers(consumers: Consumers, flights: Flights, fps: set<Id>): map<Id, Id> {
    map r | r in consumers && consumers[r].state == Active && consumers[r].fingerprint in fps
            && consumers[r].fingerprint in flights ::
      flights[consumers[r].fingerprint].leader
  }

  function DeliverResults(results: Results, owners: map<Id, Id>): Results {
    map r | r in results.Keys + owners.Keys && (r in results || owners[r] in results) ::
      if r in results then results[r] else results[owners[r]]
  }

  function DeliverRequests(requests: Requests, results: Results, owners: map<Id, Id>): Requests {
    map r | r in requests ::
      if r in owners && r !in results && owners[r] in results
      then requests[r].(state := StateOf(results[owners[r]].kind)) else requests[r]
  }

  function DeliverConsumers(consumers: Consumers, owners: map<Id, Id>): Consumers {
    map r | r in consumers ::
      if r in owners then consumers[r].(state := Completed(owners[r])) else consumers[r]
  }

  function EndFlights(flights: Flights, fps: set<Id>): Flights {
    map fp | fp in flights :: if fp in fps then flights[fp].(active := false) else flights[fp]
  }

  function WithdrawLeaders(queue: Queue, owners: map<Id, Id>): Queue {
    map r | r in queue ::
      if r in owners && owners[r] == r && queue[r].state == InQueue then queue[r].(state := Withdrawn) else queue[r]
  }

  /** Hand each finished leader's result to all active consumers of its flight and end the flight. */
  function Deliver(db: Db, fps: set<Id>): Db {
    var owners := Receivers(db.consumers, db.flights, fps);
    db.(requests := DeliverRequests(db.requests, db.results, owners),
        results := DeliverResults(db.results, owners),
        consumers := DeliverConsumers(db.consumers, owners),
        flights := EndFlights(db.flights, fps),
        queue := WithdrawLeaders(db.queue, owners))
  }

  /** The leader of this active flight already has its result. */
  predicate LeaderFinished(db: Db, fp: Id) {
    && fp in db.flights && db.flights[fp].active
    && var leader := db.flights[fp].leader;
    && !(Queued(db.requests, leader) && leader !in db.results)
  }

  predicate Reconcilable(db: Db, fp: Id) {
    && LeaderInPlace(db, fp)
    && var leader := db.flights[fp].leader;
    && (LeaderFinished(db, fp) ==>
          && leader in db.results
          && db.requests[leader].state == StateOf(db.results[leader].kind)
          && AttemptFault(db.attempts, leader, db.results[leader].kind).None?
          && Deliverable(db, fp))
  }

  /** Deliver for every active flight (of one fingerprint, or of all) whose leader is finished. */
  function Reconcile(db: Db, filter: Option<Id>): Tx<()> {
    var active := set fp | fp in db.flights && db.flights[fp].active && (filter == None || filter == Some(fp));
    if forall fp :: fp in active ==> Reconcilable(db, fp) then
      Commit(Deliver(db, set fp | fp in active && LeaderFinished(db, fp)), ())
    else Abort(FlightInconsistent)
  }

  // ---------------------------------------------------------------- admission

  // The entries still in the queue, of one domain and task if given.
  function Queueing(queue: Queue, domain: Option<Id>, task: Option<Id>): set<Id> {
    set r | r in queue && queue[r].state == InQueue
            && (domain.None? || queue[r].domain == domain.value) && (task.None? || queue[r].task == task.value)
  }

  function Depth(queue: Queue, domain: Option<Id>, task: Option<Id>): nat {
    |Queueing(queue, domain, task)|
  }

  predicate QueueFull(queue: Queue, domain: Id, task: Id, policy: QueuePolicy) {
    || Depth(queue, None, None) >= policy.globalLimit
    || Depth(queue, Some(domain), None) >= policy.domainLimit
    || Depth(queue, Some(domain), Some(task)) >= policy.taskLimit
  }

  datatype Admission = AsLeader | AsFollower(leader: Id) | QueueRejected

  function Admit(db: Db, r: Id, task: Id, fp: Id, domain: Id, token: Token, now: Time, policy: QueuePolicy): Tx<Admission> {
    var fence := Fence(db.lease, token, now);
    if fence.Some? then Abort(fence.value)
    else if r in db.requests then Abort(DuplicateKey)
    else
      match Reconcile(db.(requests := db.requests[r := Request(task, fp, ReqQueued)]), Some(fp))
      case Abort(fault) => Abort(fault)
      case Commit(ready, _) =>
        if r in ready.consumers then Abort(DuplicateKey)
        else if fp in ready.flights && ready.flights[fp].active then
          JoinFlight(ready, r, fp, domain, now)
        else if exists c :: c in ready.consumers && Waiting(ready.consumers, fp, c) then Abort(FlightInconsistent)
        else OpenFlight(ready, r, task, fp, domain, now, policy)
  }

  function JoinFlight(db: Db, r: Id, fp: Id, domain: Id, now: Time): Tx<Admission>
    requires fp in db.flights
  {
    var leader := db.flights[fp].leader;
    if leader !in db.consumers then Abort(FlightInconsistent)
    else if db.consumers[leader].domain != domain then Abort(ScopeMismatch)
    else Commit(
      db.(consumers := db.consumers[r := ConsumerRow(fp, Follower, Active, domain, now)],
          audited := db.audited + {r},
          history := if leader in db.history.episode
                     then db.history.(episode := db.history.episode[r := db.history.episode[leader]]) else db.history),
      AsFollower(leader))
  }

  function OpenFlight(db: Db, r: Id, task: Id, fp: Id, domain: Id, now: Time, policy: QueuePolicy): Tx<Admission> {
    var full := QueueFull(db.queue, domain, task, policy);
    if r in db.queue || (full && !Closable(db, r)) then Abort(DuplicateKey)
    else
      var joined := db.(
        flights := db.flights[fp := Flight(r, !full)],
        consumers := db.consumers[r := ConsumerRow(fp, Leader, if full then Left else Active, domain, now)],
        audited := db.audited + {r},
        queue := db.queue[r := Entry(domain, task, now, if full then Rejected else InQueue)],
        history := db.history.(episode := db.history.episode[r := Episode(db.history.activations, fp)],
                               activations := db.history.activations + 1));
      if full then Commit(Close(joined, {r}, Result(OutFailed, now, Some(QUEUE_FULL))), QueueRejected)
      else Commit(joined, AsLeader)
  }

  // The error codes the repository writes itself.
  const QUEUE_FULL: Id := 0
  const OWNER_INTERRUPTED: Id := 1
  const INTERRUPTED_BETWEEN_ATTEMPTS: Id := 2

  // ---------------------------------------------------------------- cancellation

  function Leave(consumers: Consumers, leaving: set<Id>): Consumers {
    map r | r in consumers :: if r in leaving then consumers[r].(state := Left) else consumers[r]
  }

  function WithState(attempts: Attempts, some: set<Id>, state: AttemptState): Attempts {
    map a | a in attempts :: if a in some then attempts[a].(state := state) else attempts[a]
  }

  function ReleaseOccupancy(db: Db, r: Id): Tx<()> {
    var held := HeldByRequest(db.reservations, r);
    if !Releasable(db.gates, db.scopes, held) then Abort(GateInconsistent)
    else Commit(db.(gates := Lowered(db.gates, db.scopes, held),
                    reservations := Settle(db.reservations, held, Recovered)), ())
  }

  function CancelResult(kind: ResultKind, now: Time, reason: Id): Result {
    Result(kind, now, if kind == OutCancelled then None else Some(reason))
  }

  /** The flight may have been sent: every active consumer learns that the outcome is unknown. */
  function CancelStartedFlight(db: Db, fp: Id, reason: Id, now: Time): Tx<()> {
    if fp !in db.flights || !db.flights[fp].active then Abort(FlightInconsistent)
    else
      match ReleaseOccupancy(db, db.flights[fp].leader)
      case Abort(fault) => Abort(fault)
      case Commit(freed, _) =>
        var leaving := set r | r in db.consumers && Waiting(db.consumers, fp, r);
        if exists r :: r in leaving && !Closable(db, r) then Abort(NotCancellable)
        else
          var started := set a | a in db.attempts && db.attempts[a].request == db.flights[fp].leader
                                 && db.attempts[a].state == Started;
          Commit(Close(freed, leaving, CancelResult(OutUnknown, now, reason)).(
                   attempts := WithState(db.attempts, started, AttUnknown),
                   consumers := Leave(db.consumers, leaving),
                   flights := db.flights[fp := db.flights[fp].(active := false)]), ())
  }

  function JoinTimes(consumers: Consumers): map<Id, Time> {
    map r | r in consumers :: consumers[r].joinedAt
  }

  /** The follower that is promoted: the one that joined first. */
  ghost function NextLeader(consumers: Consumers, fp: Id): Option<Id> {
    var followers := set r | r in consumers && Waiting(consumers, fp, r) && consumers[r].role == Follower;
    if followers == {} then None else Some(First(followers, JoinTimes(consumers)))
  }

  /** An unsent leader leaves: its flight ends, or the next follower takes its place in the queue. */
  ghost function ReplaceLeader(db: Db, r: Id, reason: Id, now: Time): Tx<Option<Id>>
    requires r in db.consumers && r in db.queue
  {
    var fp := db.consumers[r].fingerprint;
    if !Closable(db, r) then Abort(NotCancellable)
    else if fp !in db.flights then Abort(FlightInconsistent)
    else
      var closed := Close(db, {r}, CancelResult(OutCancelled, now, reason));
      var left := Leave(db.consumers, {r});
      var withdrawn := db.queue[r := db.queue[r].(state := Withdrawn)];
      match NextLeader(db.consumers, fp)
      case None =>
        Commit(closed.(consumers := left, queue := withdrawn,
                       flights := db.flights[fp := db.flights[fp].(active := false)]), None)
      case Some(next) =>
        if next in db.queue || next !in db.requests then Abort(DuplicateKey)
        else Commit(closed.(
          consumers := left[next := left[next].(role := Leader)],
          queue := withdrawn[next := Entry(db.consumers[next].domain, db.requests[next].task, now, InQueue)],
          flights := db.flights[fp := db.flights[fp].(leader := next)]), Some(next))
  }

  ghost function CancelLeader(db: Db, r: Id, reason: Id, now: Time): Tx<Option<Id>>
    requires r in db.consumers
  {
    var fp := db.consumers[r].fingerprint;
    var active := FirstActive(db.attempts, r);
    if active.Some? && db.attempts[active.value].state == Started then
      Silent(CancelStartedFlight(db, fp, reason, now))
    else if r !in db.queue || (db.queue[r].state != InQueue && db.queue[r].state != Dequeued) then
      Abort(InFlightCancellation)
    else
      match (if active.Some? then ReleaseOccupancy(db, r) else Commit(db, ()))
      case Abort(fault) => Abort(fault)
      case Commit(freed, _) =>
        var unreserved := if active.Some?
                          then freed.(attempts := WithState(freed.attempts, {active.value}, AttFailed)) else freed;
        if HasSentAttempt(db.attempts, r) then Silent(CancelStartedFlight(unreserved, fp, reason, now))
        else ReplaceLeader(unreserved, r, reason, now)
  }

  // A cancellation that promotes nobody.
  function Silent(tx: Tx<()>): Tx<Option<Id>> {
    match tx
    case Abort(fault) => Abort(fault)
    case Commit(db, _) => Commit(db, None)
  }

  ghost function Cancel(db: Db, r: Id, reason: Id, token: Token, now: Time): Tx<Option<Id>> {
    var fence := Fence(db.lease, token, now);
    if fence.Some? then Abort(fence.value)
    else if r !in db.consumers || db.consumers[r].state != Active then Abort(ConsumerNotActive)
    else if db.consumers[r].role == Follower then
      if !Closable(db, r) then Abort(NotCancellable)
      else Commit(Close(db, {r}, CancelResult(OutCancelled, now, reason)).(consumers := Leave(db.consumers, {r})), None)
    else CancelLeader(db, r, reason, now)
  }

  // ---------------------------------------------------------------- the fair queue

  function QueuedTasks(queue: Queue, domain: Id): set<Id> {
    set r | r in queue && queue[r].domain == domain && queue[r].state == InQueue :: queue[r].task
  }

  function QueuedOf(queue: Queue, domain: Id, task: Id): set<Id> {
    set r | r in queue && queue[r].domain == domain && queue[r].task == task && queue[r].state == InQueue
  }

  function EnqueueTimes(queue: Queue): map<Id, Time> {
    map r | r in queue :: queue[r].enqueuedAt
  }

  /** Round robin: the least task above the cursor, else the least task. */
  ghost function NextTask(tasks: set<Id>, cursor: Option<Id>): (t: Id)
    requires tasks != {}
    ensures t in tasks
    ensures forall x :: x in tasks && (cursor.None? || cursor.value < x) ==> (cursor.None? || cursor.value < t) && t <= x
    ensures (forall x :: x in tasks ==> cursor.Some? && x <= cursor.value) ==> forall x :: x in tasks ==> t <= x
  {
    var order := map x | x in tasks :: 0 as Time;
    var above := set x | x in tasks && (cursor.None? || x > cursor.value);
    assert forall x :: x in tasks && (cursor.None? || cursor.value < x) ==> x in above;
    if above != {} then First(above, order) else First(tasks, order)
  }

  function Lookup(cursors: map<Id, Id>, domain: Id): Option<Id> {
    if domain in cursors then Some(cursors[domain]) else None
  }

  ghost function Claim(db: Db, domain: Id, token: Token, now: Time): Tx<Option<Id>> {
    var fence := Fence(db.lease, token, now);
    var tasks := QueuedTasks(db.queue, domain);
    if fence.Some? then Abort(fence.value)
    else if tasks == {} then Commit(db, None)
    else
      var task := NextTask(tasks, Lookup(db.cursors, domain));
      assert QueuedOf(db.queue, domain, task) != {} by {
        var q :| q in db.queue && db.queue[q].domain == domain && db.queue[q].state == InQueue && db.queue[q].task == task;
        assert q in QueuedOf(db.queue, domain, task);
      }
      var r := First(QueuedOf(db.queue, domain, task), EnqueueTimes(db.queue));
      Commit(db.(queue := db.queue[r := db.queue[r].(state := Dequeued)],
                 cursors := db.cursors[domain := task]), Some(r))
  }

  // ---------------------------------------------------------------- gate acquisition

  function GateOf(gates: Gates, k: GateKey): Gate {
    if k in gates then gates[k] else Gate(0, None, None)
  }

  function StartsOf(starts: Starts, k: GateKey): seq<Time> {
    if k in starts then starts[k] else []
  }

  function CountAfter(times: seq<Time>, cutoff: Time): nat {
    if times == [] then 0
    else CountAfter(times[..|times| - 1], cutoff) + (if times[|times| - 1] > cutoff then 1 else 0)
  }

  /** Why this gate refuses a start at `now`, if it does. */
  function Blocked(gate: Gate, starts: seq<Time>, limit: Limit, now: Time): Option<BlockReason> {
    if gate.cooldown.Some? && now < gate.cooldown.value then Some(InCooldown)
    else if gate.active >= limit.maxConcurrency then Some(Concurrency)
    else if gate.lastStarted.Some? && now < gate.lastStarted.value + limit.minInterval then Some(MinimumInterval)
    else if CountAfter(starts, now - limit.window) >= limit.perWindow then Some(RollingWindow)
    else None
  }

  /** The first scope in acquisition order that refuses. */
  function FirstBlocked(order: seq<Scope>, db: Db, keys: Keys, policy: GatePolicy, now: Time): Option<Fault> {
    if order == [] then None
    else
      EveryScope(order[0]);
      var k := GateKey(order[0], keys[order[0]]);
      var reason := Blocked(GateOf(db.gates, k), StartsOf(db.starts, k), policy[order[0]], now);
      if reason.Some? then Some(GateBlocked(order[0], reason.value))
      else FirstBlocked(order[1..], db, keys, policy, now)
  }

  function KeySet(keys: Keys): set<GateKey> {
    set s | s in ALL_SCOPES :: GateKey(s, keys[s])
  }

  /** Count one more holder and one more start at `now` on every key. */
  function Raised(gates: Gates, some: set<GateKey>, now: Time): Gates {
    map k | k in gates.Keys + some ::
      if k in some then GateOf(gates, k).(active := GateOf(gates, k).active + 1, lastStarted := Some(now)) else gates[k]
  }

  function WithStart(starts: Starts, some: set<GateKey>, now: Time): Starts {
    map k | k in starts.Keys + some :: if k in some then StartsOf(starts, k) + [now] else starts[k]
  }

  predicate HasReservation(reservations: Reservations, a: Id) {
    exists v :: v in reservations && reservations[v].attempt == a
  }

  ghost function AcquireGates(db: Db, v: Id, a: Id, attempt: Attempt, keys: Keys, policy: GatePolicy,
                              token: Token, now: Time): Tx<()> {
    var fence := Fence(db.lease, token, now);
    var r := attempt.request;
    if attempt.generation != token.generation then Abort(GenerationMismatch)
    else if fence.Some? then Abort(fence.value)
    else if r !in db.queue || db.queue[r].state != Dequeued then Abort(NotDequeued)
    else if !Queued(db.requests, r) then Abort(RequestNotActive)
    else
      var blocked := FirstBlocked(SCOPE_ORDER, db, keys, policy, now);
      if blocked.Some? then Abort(blocked.value)
      else if a !in db.attempts && attempt.number != NextNumber(db.attempts, r) then Abort(SequenceRejected)
      else if a in db.attempts && (db.attempts[a].state != Reserved
              || db.attempts[a].(rawEligible := false) != attempt.(state := Reserved, rawEligible := false)) then
        Abort(ReservationMismatch)
      else if v in db.reservations || v in db.scopes || HasReservation(db.reservations, a) then Abort(DuplicateKey)
      else
        Commit(db.(
          attempts := if a in db.attempts then db.attempts
                      else db.attempts[a := attempt.(state := Reserved, rawEligible := false)],
          reservations := db.reservations[v := Reservation(a, r, token.generation, now, Holding)],
          scopes := db.scopes[v := keys],
          gates := Raised(db.gates, KeySet(keys), now),
          starts := WithStart(db.starts, KeySet(keys), now)), ())
  }

  // ---------------------------------------------------------------- the end of an attempt

  function CoolDown(gates: Gates, k: GateKey, deadline: Time): Gates {
    if k !in gates then gates
    else if gates[k].cooldown.Some? && deadline <= gates[k].cooldown.value then gates
    else gates[k := gates[k].(cooldown := Some(deadline))]
  }

  // `v`, `a` and `r` are the caller's reservation record.
  function FinishGates(db: Db, v: Id, a: Id, r: Id, outcome: AttemptState, retryAfter: Option<nat>, rawEligible: bool,
                       token: Token, now: Time): Tx<()> {
    var fence := Fence(db.lease, token, now);
    if fence.Some? then Abort(fence.value)
    else if v !in db.reservations || v !in db.scopes || |db.scopes[v]| != 8
            || db.reservations[v].(acquiredAt := 0) != Reservation(a, r, token.generation, 0, Holding) then
      Abort(StaleReservation)
    else if !Releasable(db.gates, db.scopes, {v}) || (retryAfter.Some? && Provider !in db.scopes[v]) then
      Abort(GateInconsistent)
    else
      var lowered := Lowered(db.gates, db.scopes, {v});
      Commit(db.(
        gates := if retryAfter.None? then lowered
                 else CoolDown(lowered, GateKey(Provider, db.scopes[v][Provider]), now + retryAfter.value),
        reservations := Settle(db.reservations, {v}, Released),
        attempts := if a in db.attempts && IsActive(db.attempts[a].state)
                    then db.attempts[a := db.attempts[a].(state := outcome, rawEligible := rawEligible)]
                    else db.attempts), ())
  }

  ghost function ReserveAttempt(db: Db, a: Id, r: Id, token: Token, now: Time): Tx<Attempt> {
    var fence := Fence(db.lease, token, now);
    if fence.Some? then Abort(fence.value)
    else if !Queued(db.requests, r) then Abort(RequestNotActive)
    else if HasUnknownAttempt(db.attempts, r) then Abort(AttemptUnknown)
    else if HasActiveAttempt(db.attempts, r) then Abort(AttemptAlreadyActive)
    else if a in db.attempts then Abort(DuplicateKey)
    else
      var attempt := Attempt(r, NextNumber(db.attempts, r), token.generation, now, Reserved, false);
      Commit(db.(attempts := db.attempts[a := attempt]), attempt)
  }

  function DiscardAttempt(db: Db, a: Id, token: Token, now: Time): Tx<()> {
    var fence := Fence(db.lease, token, now);
    if fence.Some? then Abort(fence.value)
    else if a !in db.attempts || db.attempts[a].generation != token.generation || db.attempts[a].state != Reserved
            || HasReservation(db.reservations, a) then Abort(DiscardRejected)
    else Commit(db.(attempts := db.attempts - {a}), ())
  }

  function MarkStarted(db: Db, a: Id, token: Token, now: Time): Tx<()> {
    var fence := Fence(db.lease, token, now);
    if fence.Some? then Abort(fence.value)
    else if a !in db.attempts || db.attempts[a].generation != token.generation || db.attempts[a].state != Reserved then
      Abort(TransitionRejected)
    else Commit(db.(attempts := db.attempts[a := db.attempts[a].(state := Started)],
                    history := db.history.(started := db.history.started + [a])), ())
  }

  // ---------------------------------------------------------------- finalisation

  function Finalize(db: Db, r: Id, result: Result, token: Token, now: Time): Tx<()> {
    var fence := Fence(db.lease, token, now);
    var invalid := AttemptFault(db.attempts, r, result.kind);
    if fence.Some? then Abort(fence.value)
    else if !Queued(db.requests, r) then Abort(RequestNotActive)
    else if r in db.consumers && (db.consumers[r].role != Leader || db.consumers[r].state != Active) then Abort(LeaderRequired)
    else if invalid.Some? then Abort(invalid.value)
    else if r in db.results then Abort(DuplicateKey)
    else
      var persisted := Close(db, {r}, result);
      if r !in db.consumers then Commit(persisted, ())
      else
        var fp := db.consumers[r].fingerprint;
        if fp !in db.flights || db.flights[fp].leader != r || !Deliverable(persisted, fp) then Abort(FlightInconsistent)
        else Commit(Deliver(persisted, {fp}), ())
  }

  // ---------------------------------------------------------------- crash recovery

  predicate HasReleasedReservation(reservations: Reservations, a: Id) {
    exists v :: v in reservations && reservations[v].attempt == a && reservations[v].state == Released
  }

  /** What recovery refuses to repair. */
  predicate Gap(db: Db, a: Id)
    requires a in db.attempts
  {
    var attempt := db.attempts[a];
    var r := attempt.request;
    && r in db.requests
    && if IsActive(attempt.state) then
         attempt.state == Started && (db.requests[r].state != ReqQueued || r in db.results)
       else if db.requests[r].state == ReqQueued then !HasReleasedReservation(db.reservations, a)
       else r !in db.results
  }

  function RecoveryFault(db: Db, generation: nat): Option<Fault> {
    if exists a :: a in db.attempts && db.attempts[a].generation > generation then Some(GenerationAnomaly)
    else if exists a :: a in db.attempts && Gap(db, a) then Some(AuditGap)
    else None
  }

  function HeldUpTo(reservations: Reservations, generation: nat): set<Id> {
    set v | v in reservations && reservations[v].state == Holding && reservations[v].generation <= generation
  }

  // Claimed requests that never got an attempt go back to the queue.
  predicate Requeued(db: Db, r: Id) {
    r in db.queue && db.queue[r].state == Dequeued && Queued(db.requests, r) && AttemptsOf(db.attempts, r) == {}
  }

  function Requeue(db: Db): Queue {
    map r | r in db.queue :: if Requeued(db, r) then db.queue[r].(state := InQueue) else db.queue[r]
  }

  function StartedRequests(attempts: Attempts, generation: nat): set<Id> {
    set a | a in attempts && attempts[a].state == Started && attempts[a].generation <= generation :: attempts[a].request
  }

  // Sent at least once and now between attempts: not repeated, but closed.
  function BetweenAttempts(db: Db): set<Id> {
    set a | a in db.attempts && !IsActive(db.attempts[a].state) && Queued(db.requests, db.attempts[a].request)
            && !HasActiveAttempt(db.attempts, db.attempts[a].request) :: db.attempts[a].request
  }

  function InterruptedKind(attempts: Attempts, r: Id): ResultKind {
    if HasUnknownAttempt(attempts, r) then OutUnknown else OutFailed
  }

  function InterruptAttempts(attempts: Attempts, generation: nat): Attempts {
    map a | a in attempts ::
      if attempts[a].generation > generation then attempts[a]
      else if attempts[a].state == Started then attempts[a].(state := AttUnknown)
      else if attempts[a].state == Reserved then attempts[a].(generation := generation + 1)
      else attempts[a]
  }

  /** Everything recovery writes before flights are reconciled. */
  function Interrupt(db: Db, generation: nat, now: Time): Db {
    var held := HeldUpTo(db.reservations, generation);
    var started := StartedRequests(db.attempts, generation);
    var between := BetweenAttempts(db);
    db.(gates := Lowered(db.gates, db.scopes, held),
        reservations := Settle(db.reservations, held, Recovered),
        queue := Requeue(db),
        requests := map r | r in db.requests ::
          if r in started || r in between then db.requests[r].(state := ReqFailed) else db.requests[r],
        results := map r | r in db.results.Keys + started + between ::
          if r in started then Result(OutUnknown, now, Some(OWNER_INTERRUPTED))
          else if r in between then Result(InterruptedKind(db.attempts, r), now, Some(INTERRUPTED_BETWEEN_ATTEMPTS))
          else db.results[r],
        attempts := InterruptAttempts(db.attempts, generation))
  }

  function RecoverLease(db: Db, owner: Id, now: Time, duration: nat): Tx<Token> {
    if db.lease.None? || !db.lease.value.active then Abort(LeaseNotFound)
    else if now < db.lease.value.heartbeatAt then Abort(ClockRollback)
    else if now < db.lease.value.expiresAt then Abort(LeaseHeld)
    else
      var generation := db.lease.value.generation;
      var fault := RecoveryFault(db, generation);
      if fault.Some? then Abort(fault.value)
      else if !Releasable(db.gates, db.scopes, HeldUpTo(db.reservations, generation)) then Abort(AuditGap)
      else if exists r :: r in StartedRequests(db.attempts, generation) && !Queued(db.requests, r) then Abort(AuditGap)
      else if exists r :: r in StartedRequests(db.attempts, generation) + BetweenAttempts(db) && r in db.results then Abort(DuplicateKey)
      else
        match Reconcile(Interrupt(db, generation, now), None)
        case Abort(fault) => Abort(fault)
        case Commit(after, _) =>
          Commit(after.(lease := Some(LeaseRow(owner, generation + 1, now, now, now + duration, true))),
                 Token(owner, generation + 1, now, now + duration))
  }
}
