/** Row-by-row changes add up to the change of a whole table. */
module OneByOne {
  import opened Basics
  import opened Tables
  import opened Transactions
  import opened RecoveryProofs

  // ---------------------------------------------------------------- gates

  // The first `n` keys in acquisition order.
  function FirstKeys(keys: Keys, n: nat): set<GateKey>
    requires n <= 8
  {
    if n == 0 then {} else
      EveryScope(SCOPE_ORDER[n - 1]);
      FirstKeys(keys, n - 1) + {GateKey(SCOPE_ORDER[n - 1], keys[SCOPE_ORDER[n - 1]])}
  }

  lemma {:induction false} FirstKeysAre(keys: Keys, n: nat, k: GateKey)
    requires n <= 8
    ensures k in FirstKeys(keys, n) <==> exists i :: 0 <= i < n && SCOPE_ORDER[i] == k.scope && k.scope in keys && keys[k.scope] == k.alias
  {
    if n > 0 {
      FirstKeysAre(keys, n - 1, k);
      EveryScope(SCOPE_ORDER[n - 1]);
    }
  }

  lemma ScopeAt(s: Scope)
    ensures exists i :: 0 <= i < 8 && SCOPE_ORDER[i] == s
  {
    match s
    case Global => assert SCOPE_ORDER[0] == s;
    case Egress => assert SCOPE_ORDER[1] == s;
    case Provider => assert SCOPE_ORDER[2] == s;
    case Origin => assert SCOPE_ORDER[3] == s;
    case Credential => assert SCOPE_ORDER[4] == s;
    case Operation => assert SCOPE_ORDER[5] == s;
    case TaskScope => assert SCOPE_ORDER[6] == s;
    case RoleScope => assert SCOPE_ORDER[7] == s;
  }

  lemma ScopesDiffer(i: nat, j: nat)
    requires i < 8 && j < 8 && SCOPE_ORDER[i] == SCOPE_ORDER[j]
    ensures i == j
  {
  }

  lemma AllKeys(keys: Keys)
    ensures FirstKeys(keys, 8) == KeySet(keys)
  {
    forall k
      ensures k in FirstKeys(keys, 8) <==> k in KeySet(keys)
    {
      FirstKeysAre(keys, 8, k);
      ScopeAt(k.scope);
      EveryScope(k.scope);
    }
  }

  lemma NewKey(keys: Keys, n: nat)
    requires n < 8
    ensures SCOPE_ORDER[n] in keys && GateKey(SCOPE_ORDER[n], keys[SCOPE_ORDER[n]]) !in FirstKeys(keys, n)
  {
    EveryScope(SCOPE_ORDER[n]);
    var k := GateKey(SCOPE_ORDER[n], keys[SCOPE_ORDER[n]]);
    FirstKeysAre(keys, n, k);
    if i :| 0 <= i < n && SCOPE_ORDER[i] == k.scope {
      ScopesDiffer(i, n);
    }
  }

  lemma RaiseOne(gates: Gates, some: set<GateKey>, k: GateKey, now: Time)
    requires k !in some
    ensures Raised(gates, some + {k}, now)
            == Raised(gates, some, now)[k := GateOf(Raised(gates, some, now), k).(active := GateOf(gates, k).active + 1, lastStarted := Some(now))]
    ensures GateOf(Raised(gates, some, now), k) == GateOf(gates, k)
  {
  }

  lemma StartOne(starts: Starts, some: set<GateKey>, k: GateKey, now: Time)
    requires k !in some
    ensures WithStart(starts, some + {k}, now) == WithStart(starts, some, now)[k := StartsOf(WithStart(starts, some, now), k) + [now]]
    ensures StartsOf(WithStart(starts, some, now), k) == StartsOf(starts, k)
  {
  }

  lemma NoneRaised(gates: Gates, starts: Starts, now: Time)
    ensures Raised(gates, {}, now) == gates && WithStart(starts, {}, now) == starts
  {
  }

  // ---------------------------------------------------------------- releasing one reservation, scope by scope

  // The gate keys of the scopes `done` of one reservation.
  function HeldKeys(held: map<Scope, Id>, done: set<Scope>): set<GateKey> {
    set s | s in done && s in held :: GateKey(s, held[s])
  }

  function Decremented(gates: Gates, some: set<GateKey>): Gates {
    map k | k in gates :: if k in some && gates[k].active > 0 then gates[k].(active := gates[k].active - 1) else gates[k]
  }

  lemma DecrementOne(gates: Gates, some: set<GateKey>, k: GateKey)
    requires k !in some && k in gates && gates[k].active > 0
    ensures k in Decremented(gates, some) && Decremented(gates, some)[k] == gates[k]
    ensures Decremented(gates, some + {k}) == Decremented(gates, some)[k := gates[k].(active := gates[k].active - 1)]
  {
  }

  lemma OneHolder(scopes: HeldScopes, v: Id, k: GateKey)
    requires v in scopes
    ensures |Holders({v}, scopes, k)| == if HoldsKey(scopes[v], k) then 1 else 0
  {
    assert Holders({v}, scopes, k) == if HoldsKey(scopes[v], k) then {v} else {};
  }

  /** Decrementing every scope of one reservation is releasing it. */
  lemma DecrementedIsLowered(gates: Gates, scopes: HeldScopes, v: Id)
    requires v in scopes
    ensures Decremented(gates, HeldKeys(scopes[v], scopes[v].Keys)) == Lowered(gates, scopes, {v})
    ensures Releasable(gates, scopes, {v}) <==>
              |scopes[v]| == 8 && forall s :: s in scopes[v] ==> GateKey(s, scopes[v][s]) in gates && gates[GateKey(s, scopes[v][s])].active > 0
  {
    forall k {
      OneHolder(scopes, v, k);
    }
    forall k
      ensures k in HeldKeys(scopes[v], scopes[v].Keys) <==> HoldsKey(scopes[v], k)
    {
    }
    forall s | s in scopes[v]
      ensures HoldsKey(scopes[v], GateKey(s, scopes[v][s]))
    {
    }
  }

  // ---------------------------------------------------------------- releasing several, one after the other

  lemma HoldersWithOne(some: set<Id>, scopes: HeldScopes, v: Id, k: GateKey)
    requires v !in some && v in scopes
    ensures |Holders(some + {v}, scopes, k)| == |Holders(some, scopes, k)| + |Holders({v}, scopes, k)|
  {
    assert Holders(some + {v}, scopes, k) == Holders(some, scopes, k) + Holders({v}, scopes, k);
  }

  lemma HoldersGrow(some: set<Id>, all: set<Id>, scopes: HeldScopes, k: GateKey)
    requires some <= all
    ensures |Holders(some, scopes, k)| <= |Holders(all, scopes, k)|
  {
    assert Holders(all, scopes, k) == Holders(some, scopes, k) + Holders(all - some, scopes, k);
  }

  lemma LowerNone(gates: Gates, scopes: HeldScopes)
    ensures Lowered(gates, scopes, {}) == gates && Releasable(gates, scopes, {})
  {
    forall k
      ensures |Holders({}, scopes, k)| == 0
    {
      assert Holders({}, scopes, k) == {};
    }
  }

  // The counts can go down for all of these.
  ghost predicate Covers(gates: Gates, scopes: HeldScopes, some: set<Id>) {
    forall k :: k in gates ==> |Holders(some, scopes, k)| <= gates[k].active
  }

  // Each of these has its eight scopes, and each scope has its gate.
  ghost predicate Shaped(gates: Gates, scopes: HeldScopes, some: set<Id>) {
    forall v :: v in some ==> v in scopes && |scopes[v]| == 8 && forall s :: s in scopes[v] ==> GateKey(s, scopes[v][s]) in gates
  }

  lemma ReleasableIff(gates: Gates, scopes: HeldScopes, some: set<Id>)
    ensures Releasable(gates, scopes, some) <==> Shaped(gates, scopes, some) && Covers(gates, scopes, some)
  {
    if Releasable(gates, scopes, some) {
      forall k | k in gates
        ensures |Holders(some, scopes, k)| <= gates[k].active
      {
        if v :| v in Holders(some, scopes, k) {
          assert k == GateKey(k.scope, scopes[v][k.scope]);
        } else {
          assert Holders(some, scopes, k) == {};
        }
      }
    }
  }

  lemma LoweredAt(gates: Gates, scopes: HeldScopes, some: set<Id>, k: GateKey)
    requires k in gates
    ensures k in Lowered(gates, scopes, some)
    ensures |Holders(some, scopes, k)| <= gates[k].active ==>
              Lowered(gates, scopes, some)[k] == gates[k].(active := gates[k].active - |Holders(some, scopes, k)|)
  {
  }

  lemma LoweredCovers(gates: Gates, scopes: HeldScopes, some: set<Id>, v: Id)
    requires Covers(gates, scopes, some) && v in scopes && v !in some
    ensures Covers(Lowered(gates, scopes, some), scopes, {v}) <==> Covers(gates, scopes, some + {v})
    ensures Covers(gates, scopes, some + {v}) ==>
              Lowered(Lowered(gates, scopes, some), scopes, {v}) == Lowered(gates, scopes, some + {v})
  {
    hide Holders, Lowered;
    var lowered := Lowered(gates, scopes, some);
    LoweredKeys(gates, scopes, some);
    LoweredKeys(lowered, scopes, {v});
    LoweredKeys(gates, scopes, some + {v});
    forall k | k in gates
      ensures |Holders({v}, scopes, k)| <= lowered[k].active <==> |Holders(some + {v}, scopes, k)| <= gates[k].active
      ensures |Holders(some + {v}, scopes, k)| <= gates[k].active ==>
                Lowered(lowered, scopes, {v})[k] == Lowered(gates, scopes, some + {v})[k]
    {
      HoldersWithOne(some, scopes, v, k);
      LoweredAt(gates, scopes, some, k);
      LoweredAt(lowered, scopes, {v}, k);
      LoweredAt(gates, scopes, some + {v}, k);
    }
  }

  /** Releasing `some` and then `v` is releasing them together, and `v` can be released after `some` exactly when they
      can be released together. */
  lemma LowerOneMore(gates: Gates, scopes: HeldScopes, some: set<Id>, v: Id)
    requires Releasable(gates, scopes, some) && v !in some && v in scopes
    ensures Releasable(Lowered(gates, scopes, some), scopes, {v}) <==> Releasable(gates, scopes, some + {v})
    ensures Releasable(gates, scopes, some + {v}) ==>
              Lowered(Lowered(gates, scopes, some), scopes, {v}) == Lowered(gates, scopes, some + {v})
  {
    hide Releasable, Covers, Lowered;
    ReleasableIff(gates, scopes, some);
    ReleasableIff(gates, scopes, some + {v});
    ReleasableIff(Lowered(gates, scopes, some), scopes, {v});
    LoweredCovers(gates, scopes, some, v);
    LoweredKeys(gates, scopes, some);
  }

  lemma LoweredKeys(gates: Gates, scopes: HeldScopes, some: set<Id>)
    ensures Lowered(gates, scopes, some).Keys == gates.Keys
  {
  }

  lemma ReleasableFewer(gates: Gates, scopes: HeldScopes, some: set<Id>, all: set<Id>)
    requires some <= all && Releasable(gates, scopes, all)
    ensures Releasable(gates, scopes, some)
  {
    forall v, s | v in some && v in scopes && s in scopes[v]
      ensures var k := GateKey(s, scopes[v][s]); k in gates && |Holders(some, scopes, k)| <= gates[k].active
    {
      HoldersGrow(some, all, scopes, GateKey(s, scopes[v][s]));
    }
  }

  lemma SettleOneMore(reservations: Reservations, some: set<Id>, v: Id, state: ReservationState)
    requires v in reservations
    ensures Settle(reservations, some + {v}, state) == Settle(reservations, some, state)[v := reservations[v].(state := state)]
  {
  }

  lemma SettleNone(reservations: Reservations, state: ReservationState)
    ensures Settle(reservations, {}, state) == reservations
  {
  }

  // ---------------------------------------------------------------- closing requests

  lemma CloseNone(requests: Requests, results: Results, consumers: Consumers, result: Result)
    ensures CloseRequests(requests, {}, result.kind) == requests
    ensures CloseResults(results, {}, result) == results
    ensures Leave(consumers, {}) == consumers
  {
    assert CloseResults(results, {}, result).Keys == results.Keys;
  }

  lemma CloseOneMore(requests: Requests, results: Results, closed: set<Id>, r: Id, result: Result)
    requires Queued(requests, r) && r !in results && r !in closed
    ensures Queued(CloseRequests(requests, closed, result.kind), r) && r !in CloseResults(results, closed, result)
    ensures CloseRequests(requests, closed + {r}, result.kind)
            == CloseRequests(requests, closed, result.kind)[r := CloseRequests(requests, closed, result.kind)[r].(state := StateOf(result.kind))]
    ensures CloseResults(results, closed + {r}, result) == CloseResults(results, closed, result)[r := result]
  {
    assert CloseResults(results, closed + {r}, result).Keys == CloseResults(results, closed, result).Keys + {r};
  }

  lemma StillClosable(requests: Requests, results: Results, closed: set<Id>, r: Id, result: Result)
    requires r !in closed
    ensures Queued(CloseRequests(requests, closed, result.kind), r) <==> Queued(requests, r)
    ensures r in CloseResults(results, closed, result) <==> r in results
  {
  }

  lemma LeaveOneMore(consumers: Consumers, leaving: set<Id>, r: Id)
    requires r in consumers
    ensures r in Leave(consumers, leaving)
    ensures Leave(consumers, leaving + {r}) == Leave(consumers, leaving)[r := Leave(consumers, leaving)[r].(state := Left)]
  {
  }

  // ---------------------------------------------------------------- delivering to one consumer after the other

  function OwnedBy(some: set<Id>, leader: Id): map<Id, Id> {
    map r | r in some :: leader
  }

  lemma DeliverNone(requests: Requests, results: Results, consumers: Consumers)
    ensures DeliverRequests(requests, results, map[]) == requests
    ensures DeliverResults(results, map[]) == results
    ensures DeliverConsumers(consumers, map[]) == consumers
  {
    assert DeliverResults(results, map[]).Keys == results.Keys;
  }

  lemma DeliverOneMore(requests: Requests, results: Results, consumers: Consumers, some: set<Id>, leader: Id, r: Id)
    requires leader in results && r !in some && r in consumers
    requires r != leader ==> Queued(requests, r) && r !in results
    ensures var before, after := OwnedBy(some, leader), OwnedBy(some + {r}, leader);
            && r in DeliverConsumers(consumers, before)
            && DeliverConsumers(consumers, after) == DeliverConsumers(consumers, before)[r := consumers[r].(state := Completed(leader))]
            && DeliverConsumers(consumers, before)[r] == consumers[r]
            && (if r == leader then DeliverRequests(requests, results, after) == DeliverRequests(requests, results, before)
                                    && DeliverResults(results, after) == DeliverResults(results, before)
                else
                  && r in DeliverRequests(requests, results, before) && DeliverRequests(requests, results, before)[r] == requests[r]
                  && DeliverRequests(requests, results, after)
                     == DeliverRequests(requests, results, before)[r := requests[r].(state := StateOf(results[leader].kind))]
                  && DeliverResults(results, after) == DeliverResults(results, before)[r := results[leader]])
  {
    var before, after := OwnedBy(some, leader), OwnedBy(some + {r}, leader);
    assert after == before[r := leader];
    hide OwnedBy;
    ConsumerMore(consumers, before, leader, r);
    RequestMore(requests, results, before, leader, r);
    ResultMore(results, before, leader, r);
  }

  lemma ConsumerMore(consumers: Consumers, before: map<Id, Id>, leader: Id, r: Id)
    requires r !in before && r in consumers
    ensures r in DeliverConsumers(consumers, before) && DeliverConsumers(consumers, before)[r] == consumers[r]
    ensures DeliverConsumers(consumers, before[r := leader])
            == DeliverConsumers(consumers, before)[r := consumers[r].(state := Completed(leader))]
  {
  }

  lemma RequestMore(requests: Requests, results: Results, before: map<Id, Id>, leader: Id, r: Id)
    requires r !in before && leader in results && (r != leader ==> r in requests && r !in results)
    ensures r == leader ==> DeliverRequests(requests, results, before[r := leader]) == DeliverRequests(requests, results, before)
    ensures r != leader ==>
              && r in DeliverRequests(requests, results, before) && DeliverRequests(requests, results, before)[r] == requests[r]
              && DeliverRequests(requests, results, before[r := leader])
                 == DeliverRequests(requests, results, before)[r := requests[r].(state := StateOf(results[leader].kind))]
  {
  }

  lemma ResultMore(results: Results, before: map<Id, Id>, leader: Id, r: Id)
    requires r !in before && leader in results && (r != leader ==> r !in results)
    ensures r == leader ==> DeliverResults(results, before[r := leader]) == DeliverResults(results, before)
    ensures r != leader ==> DeliverResults(results, before[r := leader]) == DeliverResults(results, before)[r := results[leader]]
  {
    assert DeliverResults(results, before[r := leader]).Keys
           == DeliverResults(results, before).Keys + if r == leader then {} else {r};
  }

  // The rows of a consumer that has not received yet are as they were.
  lemma NotYetDelivered(requests: Requests, results: Results, consumers: Consumers, some: set<Id>, leader: Id, r: Id)
    requires leader in results && r !in some
    ensures var owners := OwnedBy(some, leader);
            && (r in DeliverRequests(requests, results, owners) <==> r in requests)
            && (r in requests ==> DeliverRequests(requests, results, owners)[r] == requests[r])
            && (r in DeliverResults(results, owners) <==> r in results)
            && (r in DeliverConsumers(consumers, owners) <==> r in consumers)
            && (r in consumers ==> DeliverConsumers(consumers, owners)[r] == consumers[r])
  {
  }

  lemma OneFlightReceivers(consumers: Consumers, flights: Flights, fp: Id, waiting: set<Id>)
    requires fp in flights && waiting == set r | r in consumers && Waiting(consumers, fp, r)
    ensures Receivers(consumers, flights, {fp}) == OwnedBy(waiting, flights[fp].leader)
    ensures EndFlights(flights, {fp}) == flights[fp := flights[fp].(active := false)]
  {
    assert Receivers(consumers, flights, {fp}).Keys == waiting;
  }

  lemma WithdrawOne(queue: Queue, waiting: set<Id>, leader: Id)
    requires leader in waiting
    ensures WithdrawLeaders(queue, OwnedBy(waiting, leader))
            == if leader in queue && queue[leader].state == InQueue then queue[leader := queue[leader].(state := Withdrawn)] else queue
  {
  }

  // ---------------------------------------------------------------- one flight after the other

  // These flights have finished leaders whose results may be delivered.
  ghost predicate Ready(db: Db, fps: set<Id>) {
    forall fp :: fp in fps ==> Reconcilable(db, fp) && LeaderFinished(db, fp)
  }

  lemma FinishedLeaders(db: Db, fps: set<Id>, fp: Id)
    requires Ready(db, fps) && fp in fps
    ensures fp in db.flights && db.flights[fp].active && db.flights[fp].leader in db.results && db.flights[fp].leader in db.consumers
    ensures db.consumers[db.flights[fp].leader].fingerprint == fp && Deliverable(db, fp)
  {
  }

  lemma DisjointReceivers(consumers: Consumers, flights: Flights, fps: set<Id>, fp: Id)
    requires fp !in fps
    ensures Receivers(consumers, flights, fps).Keys !! Receivers(consumers, flights, {fp}).Keys
    ensures Receivers(consumers, flights, fps + {fp}) == Receivers(consumers, flights, fps) + Receivers(consumers, flights, {fp})
    ensures Receivers(DeliverConsumers(consumers, Receivers(consumers, flights, fps)), EndFlights(flights, fps), {fp})
            == Receivers(consumers, flights, {fp})
  {
    hide Receivers, DeliverConsumers, EndFlights;
    NoCommonReceiver(consumers, flights, fps, fp);
    ReceiversTogether(consumers, flights, fps, fp);
    ReceiversAfter(consumers, flights, fps, fp);
  }

  lemma NoCommonReceiver(consumers: Consumers, flights: Flights, fps: set<Id>, fp: Id)
    requires fp !in fps
    ensures Receivers(consumers, flights, fps).Keys !! Receivers(consumers, flights, {fp}).Keys
  {
  }

  lemma ReceiversTogether(consumers: Consumers, flights: Flights, fps: set<Id>, fp: Id)
    ensures Receivers(consumers, flights, fps + {fp}) == Receivers(consumers, flights, fps) + Receivers(consumers, flights, {fp})
  {
    assert Receivers(consumers, flights, fps + {fp}).Keys
           == Receivers(consumers, flights, fps).Keys + Receivers(consumers, flights, {fp}).Keys;
  }

  // The receivers of a flight not among those delivered before are the same afterwards.
  lemma ReceiversAfter(consumers: Consumers, flights: Flights, fps: set<Id>, fp: Id)
    requires fp !in fps
    ensures Receivers(DeliverConsumers(consumers, Receivers(consumers, flights, fps)), EndFlights(flights, fps), {fp})
            == Receivers(consumers, flights, {fp})
  {
    var owners := Receivers(consumers, flights, fps);
    forall r | r in consumers
      ensures DeliverConsumers(consumers, owners)[r].fingerprint == consumers[r].fingerprint
      ensures consumers[r].fingerprint == fp ==> DeliverConsumers(consumers, owners)[r] == consumers[r]
    {
    }
    assert DeliverConsumers(consumers, owners).Keys == consumers.Keys;
    hide DeliverConsumers;
    assert EndFlights(flights, fps).Keys == flights.Keys && (fp in flights ==> EndFlights(flights, fps)[fp] == flights[fp]);
    hide EndFlights;
    SameReceivers(consumers, DeliverConsumers(consumers, owners), flights, EndFlights(flights, fps), fp);
  }

  lemma SameReceivers(consumers: Consumers, consumers': Consumers, flights: Flights, flights': Flights, fp: Id)
    requires consumers'.Keys == consumers.Keys && flights'.Keys == flights.Keys && (fp in flights ==> flights'[fp] == flights[fp])
    requires forall r :: r in consumers ==>
               && consumers'[r].fingerprint == consumers[r].fingerprint
               && (consumers[r].fingerprint == fp ==> consumers'[r] == consumers[r])
    ensures Receivers(consumers', flights', {fp}) == Receivers(consumers, flights, {fp})
  {
    assert Receivers(consumers', flights', {fp}).Keys == Receivers(consumers, flights, {fp}).Keys;
  }

  lemma DeliverTwice(requests: Requests, results: Results, consumers: Consumers, queue: Queue, first: map<Id, Id>, second: map<Id, Id>)
    requires first.Keys !! second.Keys
    requires (forall r :: r in first ==> first[r] in results) && (forall r :: r in second ==> second[r] in results)
    ensures DeliverRequests(DeliverRequests(requests, results, first), DeliverResults(results, first), second)
            == DeliverRequests(requests, results, first + second)
    ensures DeliverResults(DeliverResults(results, first), second) == DeliverResults(results, first + second)
    ensures DeliverConsumers(DeliverConsumers(consumers, first), second) == DeliverConsumers(consumers, first + second)
    ensures WithdrawLeaders(WithdrawLeaders(queue, first), second) == WithdrawLeaders(queue, first + second)
  {
    hide DeliverResults, DeliverRequests;
    DeliverResultsTwice(results, first, second);
    DeliverRequestsTwice(requests, results, first, second);
  }

  lemma DeliverResultsTwice(results: Results, first: map<Id, Id>, second: map<Id, Id>)
    requires first.Keys !! second.Keys
    requires (forall r :: r in first ==> first[r] in results) && (forall r :: r in second ==> second[r] in results)
    ensures DeliverResults(DeliverResults(results, first), second) == DeliverResults(results, first + second)
  {
    var once := DeliverResults(results, first);
    assert once.Keys == results.Keys + first.Keys;
    assert DeliverResults(once, second).Keys == DeliverResults(results, first + second).Keys;
  }

  lemma DeliverRequestsTwice(requests: Requests, results: Results, first: map<Id, Id>, second: map<Id, Id>)
    requires first.Keys !! second.Keys
    requires (forall r :: r in first ==> first[r] in results) && (forall r :: r in second ==> second[r] in results)
    ensures DeliverRequests(DeliverRequests(requests, results, first), DeliverResults(results, first), second)
            == DeliverRequests(requests, results, first + second)
  {
    assert DeliverResults(results, first).Keys == results.Keys + first.Keys;
  }

  lemma EndTwice(flights: Flights, fps: set<Id>, fp: Id)
    ensures EndFlights(EndFlights(flights, fps), {fp}) == EndFlights(flights, fps + {fp})
  {
  }

  lemma OwnersHaveResults(db: Db, fps: set<Id>)
    requires Ready(db, fps)
    ensures forall r :: r in Receivers(db.consumers, db.flights, fps) ==> Receivers(db.consumers, db.flights, fps)[r] in db.results
  {
    forall r | r in Receivers(db.consumers, db.flights, fps)
      ensures Receivers(db.consumers, db.flights, fps)[r] in db.results
    {
      FinishedLeaders(db, fps, db.consumers[r].fingerprint);
    }
  }

  /** Delivering one more flight is delivering them together. */
  lemma DeliverOneFlightMore(db: Db, fps: set<Id>, fp: Id)
    requires Ready(db, fps + {fp}) && fp !in fps
    ensures Deliver(Deliver(db, fps), {fp}) == Deliver(db, fps + {fp})
  {
    hide DeliverRequests, DeliverResults, DeliverConsumers, EndFlights, WithdrawLeaders, Receivers, Reconcilable, LeaderFinished;
    var first, second := Receivers(db.consumers, db.flights, fps), Receivers(db.consumers, db.flights, {fp});
    DisjointReceivers(db.consumers, db.flights, fps, fp);
    assert Ready(db, fps) && Ready(db, {fp});
    OwnersHaveResults(db, fps);
    OwnersHaveResults(db, {fp});
    DeliverTwice(db.requests, db.results, db.consumers, db.queue, first, second);
    EndTwice(db.flights, fps, fp);
  }

  ghost predicate RowsAlike(before: Db, after: Db, r: Id) {
    && (r in after.consumers <==> r in before.consumers) && (r in before.consumers ==> after.consumers[r] == before.consumers[r])
    && (r in after.requests <==> r in before.requests) && (r in before.requests ==> after.requests[r] == before.requests[r])
    && (r in after.results <==> r in before.results) && (r in before.results ==> after.results[r] == before.results[r])
  }

  // The rows of consumers of other flights are untouched by a delivery.
  lemma ElsewhereUntouched(db: Db, fps: set<Id>, r: Id)
    requires Ready(db, fps) && (r in db.consumers ==> db.consumers[r].state != Active || db.consumers[r].fingerprint !in fps)
    ensures RowsAlike(db, Deliver(db, fps), r)
  {
  }

  lemma WaitingUntouched(db: Db, fps: set<Id>, fp: Id, r: Id)
    requires fp !in fps
    ensures Waiting(Deliver(db, fps).consumers, fp, r) <==> Waiting(db.consumers, fp, r)
  {
  }

  lemma DeliverableUntouched(db: Db, fps: set<Id>, fp: Id)
    requires Ready(db, fps) && fp !in fps && fp in db.flights
    requires db.flights[fp].leader in db.consumers && db.consumers[db.flights[fp].leader].fingerprint == fp
    ensures Deliverable(Deliver(db, fps), fp) <==> Deliverable(db, fp)
  {
    var after := Deliver(db, fps);
    assert after.flights.Keys == db.flights.Keys && after.flights[fp] == db.flights[fp];
    forall r
      ensures Waiting(after.consumers, fp, r) <==> Waiting(db.consumers, fp, r)
      ensures Waiting(db.consumers, fp, r) || r == db.flights[fp].leader ==> RowsAlike(db, after, r)
    {
      WaitingUntouched(db, fps, fp, r);
      if Waiting(db.consumers, fp, r) || r == db.flights[fp].leader {
        ElsewhereUntouched(db, fps, r);
      }
    }
    DeliverFrame(db, fps);
    hide Deliver, AttemptsOf, RowsAlike;
    DeliverableAlike(db, after, fp);
  }

  lemma DeliverableAlike(before: Db, after: Db, fp: Id)
    requires fp in before.flights && fp in after.flights && after.flights[fp] == before.flights[fp]
    requires after.attempts == before.attempts && after.audited == before.audited
    requires RowsAlike(before, after, before.flights[fp].leader)
    requires forall r :: Waiting(after.consumers, fp, r) <==> Waiting(before.consumers, fp, r)
    requires forall r :: Waiting(before.consumers, fp, r) ==> RowsAlike(before, after, r)
    ensures Deliverable(after, fp) <==> Deliverable(before, fp)
  {
    hide AttemptsOf;
  }

  /** Whether a flight can be reconciled does not depend on the flights reconciled before it. */
  lemma ReconcilableUntouched(db: Db, fps: set<Id>, fp: Id)
    requires Ready(db, fps) && fp !in fps && fp in db.flights && db.flights[fp].active
    ensures Reconcilable(Deliver(db, fps), fp) <==> Reconcilable(db, fp)
    ensures Reconcilable(db, fp) ==> (LeaderFinished(Deliver(db, fps), fp) <==> LeaderFinished(db, fp))
  {
    var after, leader := Deliver(db, fps), db.flights[fp].leader;
    assert after.flights.Keys == db.flights.Keys && after.flights[fp] == db.flights[fp];
    DeliverFrame(db, fps);
    DeliverKeys(db, fps);
    if leader in db.consumers {
      if db.consumers[leader].state == Active && db.consumers[leader].fingerprint in fps {
        CompletedLeader(db, fps, leader);
        OtherFlightsLeader(db, fps, fp);
        hide Deliver, Deliverable, AttemptFault;
      } else {
        ElsewhereUntouched(db, fps, leader);
        if db.consumers[leader].fingerprint == fp {
          DeliverableUntouched(db, fps, fp);
        }
        hide Deliver, AttemptFault, Waiting, Closable;
      }
    }
  }

  lemma DeliverKeys(db: Db, fps: set<Id>)
    ensures Deliver(db, fps).consumers.Keys == db.consumers.Keys && Deliver(db, fps).requests.Keys == db.requests.Keys
  {
    hide DeliverResults, EndFlights, WithdrawLeaders, Receivers, DeliverRequests, DeliverConsumers;
    DeliveredKeys(db.requests, db.results, db.consumers, Receivers(db.consumers, db.flights, fps));
  }

  lemma DeliveredKeys(requests: Requests, results: Results, consumers: Consumers, owners: map<Id, Id>)
    ensures DeliverConsumers(consumers, owners).Keys == consumers.Keys && DeliverRequests(requests, results, owners).Keys == requests.Keys
  {
  }

  lemma CompletedLeader(db: Db, fps: set<Id>, r: Id)
    requires Ready(db, fps) && r in db.consumers && db.consumers[r].state == Active && db.consumers[r].fingerprint in fps
    ensures r in Deliver(db, fps).consumers && Deliver(db, fps).consumers[r].state != Active
  {
    FinishedLeaders(db, fps, db.consumers[r].fingerprint);
  }

  // A leader whose row names a flight that is delivered cannot lead another one.
  lemma OtherFlightsLeader(db: Db, fps: set<Id>, fp: Id)
    requires Ready(db, fps) && fp !in fps && fp in db.flights && db.flights[fp].active
    requires db.flights[fp].leader in db.consumers && db.consumers[db.flights[fp].leader].state == Active
    requires db.consumers[db.flights[fp].leader].fingerprint in fps
    ensures !Reconcilable(db, fp)
  {
    var leader := db.flights[fp].leader;
    FinishedLeaders(db, fps, db.consumers[leader].fingerprint);
    assert Waiting(db.consumers, db.consumers[leader].fingerprint, leader);
  }

  // ---------------------------------------------------------------- interrupted requests

  lemma FailNone(requests: Requests, results: Results, attempts: Attempts, now: Time)
    ensures FailRequests(requests, {}, {}) == requests && FailResults(results, attempts, {}, {}, now) == results
  {
    assert FailResults(results, attempts, {}, {}, now).Keys == results.Keys;
  }

  lemma FailStarted(requests: Requests, results: Results, attempts: Attempts, started: set<Id>, r: Id, now: Time)
    requires r in requests && r !in started
    ensures r in FailRequests(requests, started, {}) && FailRequests(requests, started, {})[r] == requests[r]
    ensures FailRequests(requests, started + {r}, {}) == FailRequests(requests, started, {})[r := requests[r].(state := ReqFailed)]
    ensures FailResults(results, attempts, started + {r}, {}, now)
            == FailResults(results, attempts, started, {}, now)[r := Result(OutUnknown, now, Some(OWNER_INTERRUPTED))]
    ensures r in FailResults(results, attempts, started, {}, now) <==> r in results
  {
    assert FailResults(results, attempts, started + {r}, {}, now).Keys == FailResults(results, attempts, started, {}, now).Keys + {r};
  }

  lemma FailBetween(requests: Requests, results: Results, attempts: Attempts, started: set<Id>, between: set<Id>, r: Id, now: Time)
    requires r in requests && r !in started && r !in between
    ensures r in FailRequests(requests, started, between) && FailRequests(requests, started, between)[r] == requests[r]
    ensures FailRequests(requests, started, between + {r}) == FailRequests(requests, started, between)[r := requests[r].(state := ReqFailed)]
    ensures FailResults(results, attempts, started, between + {r}, now)
            == FailResults(results, attempts, started, between, now)
               [r := Result(InterruptedKind(attempts, r), now, Some(INTERRUPTED_BETWEEN_ATTEMPTS))]
    ensures r in FailResults(results, attempts, started, between, now) <==> r in results
  {
    assert FailResults(results, attempts, started, between + {r}, now).Keys == FailResults(results, attempts, started, between, now).Keys + {r};
  }
}
