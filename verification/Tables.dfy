/**
The rows of the durable request database and the orders its queries use.

Identifiers are opaque and only compared, so they are natural numbers; times are
microseconds. `Timestamps` shows that the text order of the stored timestamps is
the order of these numbers.
*/
module Tables {

  import opened Basics

  type Time = int

  // A logical request is in state 'queued' until it has its one result.
  datatype RequestState = ReqQueued | ReqCancelled | ReqSucceeded | ReqFailed

  datatype ResultKind = OutSucceeded | OutFailed | OutCancelled | OutUnknown

  datatype AttemptState = Reserved | Started | AttSucceeded | AttFailed | AttUnknown

  datatype EntryState = InQueue | Dequeued | Rejected | Withdrawn

  datatype ReservationState = Holding | Released | Recovered

  datatype Role = Leader | Follower

  // 'completed' rows, and only those, name the request whose result they received.
  datatype ConsumerState = Active | Left | Completed(owner: Id)

  datatype Scope = Global | Egress | Provider | Origin | Credential | Operation | TaskScope | RoleScope

  const ALL_SCOPES: set<Scope> := {Global, Egress, Provider, Origin, Credential, Operation, TaskScope, RoleScope}

  lemma EveryScope(s: Scope)
    ensures s in ALL_SCOPES
  {
    match s
    case Global => case Egress => case Provider => case Origin =>
    case Credential => case Operation => case TaskScope => case RoleScope =>
  }

  const SCOPE_ORDER: seq<Scope> := [Global, Egress, Provider, Origin, Credential, Operation, TaskScope, RoleScope]

  datatype GateKey = GateKey(scope: Scope, alias: Id)

  datatype Request = Request(task: Id, fingerprint: Id, state: RequestState)

  datatype Result = Result(kind: ResultKind, completedAt: Time, error: Option<Id>)

  datatype Attempt = Attempt(request: Id, number: nat, generation: nat, createdAt: Time,
                             state: AttemptState, rawEligible: bool)

  datatype LeaseRow = LeaseRow(owner: Id, generation: nat, acquiredAt: Time, heartbeatAt: Time,
                               expiresAt: Time, active: bool)

  // A worker's own copy of the lease it holds.
  datatype Token = Token(owner: Id, generation: nat, heartbeatAt: Time, expiresAt: Time)

  datatype Entry = Entry(domain: Id, task: Id, enqueuedAt: Time, state: EntryState)

  datatype Gate = Gate(active: nat, lastStarted: Option<Time>, cooldown: Option<Time>)

  datatype Reservation = Reservation(attempt: Id, request: Id, generation: nat, acquiredAt: Time,
                                     state: ReservationState)

  datatype Flight = Flight(leader: Id, active: bool)

  datatype ConsumerRow = ConsumerRow(fingerprint: Id, role: Role, state: ConsumerState,
                                     domain: Id, joinedAt: Time)

  datatype Limit = Limit(maxConcurrency: nat, minInterval: nat, perWindow: nat, window: nat)

  // The two records validated before any transaction sees them: one entry for every scope.
  type Keys = m: map<Scope, Id> | m.Keys == ALL_SCOPES
    witness map[Global := 0, Egress := 0, Provider := 0, Origin := 0,
                Credential := 0, Operation := 0, TaskScope := 0, RoleScope := 0]

  type GatePolicy = m: map<Scope, Limit> | m.Keys == ALL_SCOPES
    witness map[Global := Limit(1, 0, 1, 1), Egress := Limit(1, 0, 1, 1), Provider := Limit(1, 0, 1, 1),
                Origin := Limit(1, 0, 1, 1), Credential := Limit(1, 0, 1, 1), Operation := Limit(1, 0, 1, 1),
                TaskScope := Limit(1, 0, 1, 1), RoleScope := Limit(1, 0, 1, 1)]

  datatype QueuePolicy = QueuePolicy(globalLimit: nat, domainLimit: nat, taskLimit: nat)

  type Requests = map<Id, Request>
  type Results = map<Id, Result>
  type Attempts = map<Id, Attempt>
  type Queue = map<Id, Entry>
  type Gates = map<GateKey, Gate>
  type Reservations = map<Id, Reservation>
  type HeldScopes = map<Id, map<Scope, Id>>
  type Starts = map<GateKey, seq<Time>>
  type Flights = map<Id, Flight>
  type Consumers = map<Id, ConsumerRow>

  /** What has happened so far. No transaction reads it; it only lets statements speak of the past.
      `started` lists the attempts marked started, in order; `episode` gives, for each request,
      the flight it joined, from one activation of its fingerprint to the end of that flight. */
  datatype History = History(started: seq<Id>, episode: map<Id, Episode>, activations: nat)

  datatype Episode = Episode(number: nat, fingerprint: Id)

  /** All tables. `starts` is the start table grouped by gate key, in insertion order;
      `audited` holds the requests with a single-flight admission event. */
  datatype Db = Db(
    requests: Requests, results: Results, attempts: Attempts, lease: Option<LeaseRow>,
    queue: Queue, cursors: map<Id, Id>, gates: Gates, reservations: Reservations,
    scopes: HeldScopes, starts: Starts, flights: Flights, consumers: Consumers,
    audited: set<Id>, history: History)

  const EMPTY_DB := Db(map[], map[], map[], None, map[], map[], map[], map[], map[], map[],
                       map[], map[], {}, History([], map[], 0))

  // The state a request takes with its result: an unknown outcome is stored as 'failed'.
  function StateOf(kind: ResultKind): RequestState {
    match kind
    case OutSucceeded => ReqSucceeded
    case OutFailed => ReqFailed
    case OutCancelled => ReqCancelled
    case OutUnknown => ReqFailed
  }

  predicate IsActive(state: AttemptState) {
    state == Reserved || state == Started
  }

  // How an attempt can end.
  type Outcome = s: AttemptState | !IsActive(s)
    witness AttSucceeded

  function GenerationOf(lease: Option<LeaseRow>): nat {
    if lease.None? then 0 else lease.value.generation
  }

  // Order of 'ORDER BY time, id'.
  predicate Before(at: map<Id, Time>, x: Id, y: Id)
    requires x in at && y in at
  {
    at[x] < at[y] || (at[x] == at[y] && x <= y)
  }

  lemma {:induction false} FirstExists(s: set<Id>, at: map<Id, Time>)
    requires s != {} && s <= at.Keys
    ensures exists x :: x in s && forall y :: y in s ==> Before(at, x, y)
  {
    var z :| z in s;
    if s == {z} {
      assert Before(at, z, z);
    } else {
      var rest := s - {z};
      FirstExists(rest, at);
      var x :| x in rest && forall y :: y in rest ==> Before(at, x, y);
      FirstOfMore(s, at, x, z);
    }
  }

  lemma FirstOfMore(s: set<Id>, at: map<Id, Time>, x: Id, z: Id)
    requires s <= at.Keys && x in s && z in s && forall y :: y in s - {z} ==> Before(at, x, y)
    ensures exists first :: first in s && forall y :: y in s ==> Before(at, first, y)
  {
    var first := if Before(at, x, z) then x else z;
    forall y | y in s
      ensures Before(at, first, y)
    {
      assert y != z ==> y in s - {z};
    }
  }

  /** The row a query with 'ORDER BY time, id LIMIT 1' returns. */
  ghost function First(s: set<Id>, at: map<Id, Time>): (x: Id)
    requires s != {} && s <= at.Keys
    ensures x in s && forall y :: y in s ==> Before(at, x, y)
  {
    FirstExists(s, at);
    var x :| x in s && forall y :: y in s ==> Before(at, x, y);
    x
  }

  lemma {:induction false} GreatestExists(s: set<nat>)
    requires s != {}
    ensures exists x :: x in s && forall y :: y in s ==> y <= x
  {
    var z :| z in s;
    var rest := s - {z};
    if rest == {} {
      assert s == {z};
    } else {
      GreatestExists(rest);
      var x :| x in rest && forall y :: y in rest ==> y <= x;
      var greatest := if z <= x then x else z;
      assert forall y :: y in s ==> y == z || y in rest;
      assert greatest in s && forall y :: y in s ==> y <= greatest;
    }
  }

  /** 'COALESCE(MAX(n), 0)'. */
  ghost function Greatest(s: set<nat>): (x: nat)
    ensures forall y :: y in s ==> y <= x
    ensures x == 0 || x in s
  {
    if s == {} then 0 else
      GreatestExists(s);
      var x :| x in s && forall y :: y in s ==> y <= x;
      x
  }
}
