/** Counting on the gates: what raising and lowering them does to the accounts. */
module GateProofs {
  import opened Basics
  import opened Tables
  import opened Transactions
  import opened Invariant

  lemma HoldersSplit(held: set<Id>, some: set<Id>, scopes: HeldScopes, k: GateKey)
    requires some <= held
    ensures Holders(some, scopes, k) <= Holders(held, scopes, k)
    ensures |Holders(held, scopes, k)| == |Holders(held - some, scopes, k)| + |Holders(some, scopes, k)|
  {
    assert Holders(held, scopes, k) == Holders(held - some, scopes, k) + Holders(some, scopes, k);
  }

  lemma HeldFits(gates: Gates, reservations: Reservations, scopes: HeldScopes, some: set<Id>, k: GateKey)
    requires Accounting(gates, reservations, scopes) && some <= HeldBy(reservations)
    ensures |Holders(some, scopes, k)| <= ActiveCount(gates, k)
  {
    HoldersSplit(HeldBy(reservations), some, scopes, k);
  }

  lemma EightScopes()
    ensures |ALL_SCOPES| == 8
  {
  }

  /** Under the accounts every held reservation can be released: no fail-closed branch is taken. */
  lemma HeldIsReleasable(gates: Gates, reservations: Reservations, scopes: HeldScopes, some: set<Id>)
    requires Accounting(gates, reservations, scopes) && some <= HeldBy(reservations)
    requires forall v :: v in some ==> v in scopes && scopes[v].Keys == ALL_SCOPES
    ensures Releasable(gates, scopes, some)
  {
    EightScopes();
    forall v | v in some
      ensures |scopes[v]| == 8
    {
      assert |scopes[v].Keys| == |scopes[v]|;
    }
    forall v, s | v in some && v in scopes && s in scopes[v]
      ensures GateKey(s, scopes[v][s]) in gates
              && |Holders(some, scopes, GateKey(s, scopes[v][s]))| <= gates[GateKey(s, scopes[v][s])].active
    {
      var k := GateKey(s, scopes[v][s]);
      HeldFits(gates, reservations, scopes, some, k);
      assert v in Holders(some, scopes, k);
    }
  }

  lemma SettleShrinks(reservations: Reservations, some: set<Id>, state: ReservationState)
    requires some <= HeldBy(reservations) && state != Holding
    ensures HeldBy(Settle(reservations, some, state)) == HeldBy(reservations) - some
  {
  }

  lemma ReleaseKeepsAccounting(gates: Gates, reservations: Reservations, scopes: HeldScopes, some: set<Id>, state: ReservationState)
    requires Accounting(gates, reservations, scopes) && some <= HeldBy(reservations) && state != Holding
    ensures Accounting(Lowered(gates, scopes, some), Settle(reservations, some, state), scopes)
  {
    var gates', reservations' := Lowered(gates, scopes, some), Settle(reservations, some, state);
    SettleShrinks(reservations, some, state);
    forall k
      ensures ActiveCount(gates', k) == |Holders(HeldBy(reservations'), scopes, k)|
    {
      HoldersSplit(HeldBy(reservations), some, scopes, k);
      assert ActiveCount(gates, k) == |Holders(HeldBy(reservations), scopes, k)|;
    }
  }

  lemma CoolDownKeepsAccounting(gates: Gates, k: GateKey, deadline: Time, reservations: Reservations, scopes: HeldScopes)
    requires Accounting(gates, reservations, scopes)
    ensures Accounting(CoolDown(gates, k, deadline), reservations, scopes)
  {
    forall j
      ensures ActiveCount(CoolDown(gates, k, deadline), j) == |Holders(HeldBy(reservations), scopes, j)|
    {
      assert ActiveCount(gates, j) == |Holders(HeldBy(reservations), scopes, j)|;
    }
  }

  lemma InKeySet(keys: Keys, k: GateKey)
    ensures k in KeySet(keys) <==> HoldsKey(keys, k)
  {
    EveryScope(k.scope);
  }

  lemma HoldersAdd(held: set<Id>, scopes: HeldScopes, v: Id, keys: map<Scope, Id>, k: GateKey)
    requires v !in held
    ensures |Holders(held + {v}, scopes[v := keys], k)| == |Holders(held, scopes, k)| + (if HoldsKey(keys, k) then 1 else 0)
  {
    var added := if HoldsKey(keys, k) then {v} else {};
    assert Holders(held + {v}, scopes[v := keys], k) == Holders(held, scopes, k) + added;
  }

  lemma AcquireKeepsAccounting(gates: Gates, reservations: Reservations, scopes: HeldScopes,
                               v: Id, reservation: Reservation, keys: Keys, now: Time)
    requires Accounting(gates, reservations, scopes)
    requires v !in reservations && reservation.state == Holding
    ensures Accounting(Raised(gates, KeySet(keys), now), reservations[v := reservation], scopes[v := keys])
  {
    var gates' := Raised(gates, KeySet(keys), now);
    var held, held' := HeldBy(reservations), HeldBy(reservations[v := reservation]);
    assert held' == held + {v};
    forall k
      ensures ActiveCount(gates', k) == |Holders(held', scopes[v := keys], k)|
    {
      assert ActiveCount(gates, k) == |Holders(held, scopes, k)|;
      InKeySet(keys, k);
      HoldersAdd(held, scopes, v, keys, k);
    }
  }

  /** An acquisition happens at or after the last start of each of its gates. */
  lemma FirstBlockedNone(order: seq<Scope>, db: Db, keys: Keys, policy: GatePolicy, now: Time, s: Scope)
    requires FirstBlocked(order, db, keys, policy, now).None? && s in order
    ensures s in keys && s in policy
    ensures Blocked(GateOf(db.gates, GateKey(s, keys[s])), StartsOf(db.starts, GateKey(s, keys[s])), policy[s], now).None?
  {
    EveryScope(s);
    if s != order[0] {
      FirstBlockedNone(order[1..], db, keys, policy, now, s);
    }
  }

  lemma AdmittedGate(db: Db, keys: Keys, policy: GatePolicy, now: Time, k: GateKey)
    requires FirstBlocked(SCOPE_ORDER, db, keys, policy, now).None? && k in KeySet(keys)
    ensures k.scope in policy
    ensures Blocked(GateOf(db.gates, k), StartsOf(db.starts, k), policy[k.scope], now).None?
  {
    EveryScope(k.scope);
    assert k.scope in SCOPE_ORDER by {
      match k.scope
      case Global => assert SCOPE_ORDER[0] == Global;
      case Egress => assert SCOPE_ORDER[1] == Egress;
      case Provider => assert SCOPE_ORDER[2] == Provider;
      case Origin => assert SCOPE_ORDER[3] == Origin;
      case Credential => assert SCOPE_ORDER[4] == Credential;
      case Operation => assert SCOPE_ORDER[5] == Operation;
      case TaskScope => assert SCOPE_ORDER[6] == TaskScope;
      case RoleScope => assert SCOPE_ORDER[7] == RoleScope;
    }
    FirstBlockedNone(SCOPE_ORDER, db, keys, policy, now, k.scope);
  }

  lemma AppendKeepsOrder(times: seq<Time>, now: Time)
    requires Nondecreasing(times) && (times != [] ==> times[|times| - 1] <= now)
    ensures Nondecreasing(times + [now])
  {
  }

  lemma AcquireKeepsStarts(db: Db, keys: Keys, policy: GatePolicy, now: Time)
    requires StartsOk(db.gates, db.starts)
    requires FirstBlocked(SCOPE_ORDER, db, keys, policy, now).None?
    ensures StartsOk(Raised(db.gates, KeySet(keys), now), WithStart(db.starts, KeySet(keys), now))
  {
    forall k | k in KeySet(keys)
      ensures Nondecreasing(StartsOf(db.starts, k) + [now])
    {
      AdmittedGate(db, keys, policy, now, k);
      AppendKeepsOrder(StartsOf(db.starts, k), now);
    }
    StartsAppended(db.gates, db.starts, KeySet(keys), now);
  }

  lemma StartsAppended(gates: Gates, starts: Starts, some: set<GateKey>, now: Time)
    requires StartsOk(gates, starts)
    requires forall k :: k in some ==> Nondecreasing(StartsOf(starts, k) + [now])
    ensures StartsOk(Raised(gates, some, now), WithStart(starts, some, now))
  {
    var starts' := WithStart(starts, some, now);
    forall k | k in starts'
      ensures starts'[k] != [] && Nondecreasing(starts'[k])
      ensures Raised(gates, some, now)[k].lastStarted == Some(starts'[k][|starts'[k]| - 1])
    {
      if k in some {
        assert starts'[k] == StartsOf(starts, k) + [now];
      }
    }
  }
}
