/**
The in-memory coordinator: one attempt at a time per rate domain, a minimum interval, a sliding window kept as a
pruned list of start times, a provider cooldown, and an exact hint when to retry. A send may call the coordinator again.
*/
module Coordination {
  import opened Basics

  type Seconds = real

  // Interval and window are positive and at least one request fits in a window: anything else is refused as a binding.
  type Limits = l: Bounds | 0.0 < l.interval && 0.0 < l.window && 0 < l.count witness Bounds(1.0, 1, 1.0)
  datatype Bounds = Bounds(interval: Seconds, count: nat, window: Seconds)

  datatype Category = Ok | ProviderError | RateLimited

  datatype Response = Response(succeeded: bool, payload: bool, category: Category, retryAfter: Option<Seconds>)

  datatype Reason = InvalidInput | ConflictingDomain | TransportException | InvalidResponse | InvalidClock | Category(category: Category)

  datatype Result = Refused(reason: Reason) | Blocked(retryAfter: Option<Seconds>) | Succeeded
                  | Failed(reason: Reason, retryAfter: Option<Seconds>)

  /** One call, with what its environment does: the clock reading at the start, the calls made from inside the send,
      the response if one arrives, and the clock reading afterwards. */
  datatype Call = Call(domain: Id, limits: Limits, clock: Seconds, nested: seq<Call>, response: Option<Response>, received: Seconds)

  predicate IsValid(response: Response) {
    && (response.retryAfter.Some? ==> 0.0 <= response.retryAfter.value)
    && if response.succeeded then response.payload && response.category == Ok && response.retryAfter.None?
       else !response.payload && response.category != Ok
  }

  // The state of a domain; `history` lists every start there ever was.
  datatype State = State(limits: Limits, occupied: bool, lastStart: Option<Seconds>, starts: seq<Seconds>, cooldown: Seconds,
                         history: seq<Seconds>)

  datatype Whole = Whole(domains: map<Id, State>, lastClock: Option<Seconds>)

  function NewState(limits: Limits): State {
    State(limits, false, None, [], 0.0, [])
  }

  predicate ClockOk(lastClock: Option<Seconds>, now: Seconds) {
    0.0 <= now && (lastClock.Some? ==> lastClock.value <= now)
  }

  function Max(x: Seconds, y: Seconds): Seconds {
    if x < y then y else x
  }

  /** The starts still inside the window at `now`. */
  function Active(starts: seq<Seconds>, now: Seconds, window: Seconds): seq<Seconds> {
    if starts == [] then []
    else Active(starts[..|starts| - 1], now, window)
         + (if now - starts[|starts| - 1] < window then [starts[|starts| - 1]] else [])
  }

  function IntervalWait(d: State, now: Seconds): Seconds {
    if d.lastStart.Some? then Max(0.0, d.lastStart.value + d.limits.interval - now) else 0.0
  }

  function WindowWait(d: State, now: Seconds): Seconds {
    var active := Active(d.starts, now, d.limits.window);
    if |active| >= d.limits.count then Max(0.0, active[|active| - d.limits.count] + d.limits.window - now) else 0.0
  }

  function CooldownWait(d: State, now: Seconds): Seconds {
    Max(0.0, d.cooldown - now)
  }

  predicate Admitted(d: State, now: Seconds) {
    CooldownWait(d, now) == 0.0 && !d.occupied && IntervalWait(d, now) == 0.0 && WindowWait(d, now) == 0.0
  }

  /** How long to wait, unless an attempt is in flight. */
  function Hint(d: State, now: Seconds): Option<Seconds> {
    if d.occupied then None else Some(Max(CooldownWait(d, now), Max(IntervalWait(d, now), WindowWait(d, now))))
  }

  function StateOf(w: Whole, k: Id, limits: Limits): State {
    if k in w.domains then w.domains[k] else NewState(limits)
  }

  function Started(d: State, now: Seconds): State {
    d.(occupied := true, lastStart := Some(now), starts := Active(d.starts, now, d.limits.window) + [now], history := d.history + [now])
  }

  // The response and clock reading after a send, and what the caller is told.
  function Received(d: State, lastClock: Option<Seconds>, call: Call): (State, Option<Seconds>, Result) {
    var valid := call.response.Some? && IsValid(call.response.value);
    if !ClockOk(lastClock, call.received) then (d.(occupied := false), lastClock, Failed(InvalidClock, None))
    else
      var retry := if valid then call.response.value.retryAfter else None;
      var cooled := if retry.Some? then d.(cooldown := Max(d.cooldown, call.received + retry.value)) else d;
      (cooled.(occupied := false), Some(call.received),
       if valid && call.response.value.succeeded then Succeeded
       else Failed(if call.response.None? then TransportException
                   else if !valid then InvalidResponse else Category(call.response.value.category), retry))
  }

  /** What one call does to all domains. */
  function Outcome(w: Whole, call: Call): (r: (Whole, Result))
    ensures w.domains.Keys <= r.0.domains.Keys
    decreases call, |call.nested| + 2
  {
    if !ClockOk(w.lastClock, call.clock) then (w, Refused(InvalidInput))
    else
      var d := StateOf(w, call.domain, call.limits);
      if d.limits != call.limits then (w, Refused(ConflictingDomain))
      else if !Admitted(d, call.clock) then (w, Blocked(Hint(d, call.clock)))
      else Sent(w, call)
  }

  function Sent(w: Whole, call: Call): (r: (Whole, Result))
    ensures w.domains.Keys <= r.0.domains.Keys
    decreases call, |call.nested| + 1
  {
    var d := StateOf(w, call.domain, call.limits);
    var sent := Nested(Whole(w.domains[call.domain := Started(d, call.clock)], Some(call.clock)), call, |call.nested|);
    var (after, clock, result) := Received(sent.domains[call.domain], sent.lastClock, call);
    (Whole(sent.domains[call.domain := after], clock), result)
  }

  // The first `n` calls made from inside a send.
  function Nested(w: Whole, call: Call, n: nat): (r: Whole)
    requires n <= |call.nested|
    ensures w.domains.Keys <= r.domains.Keys
    decreases call, n
  {
    if n == 0 then w else Outcome(Nested(w, call, n - 1), call.nested[n - 1]).0
  }

  // ---------------------------------------------------------------- pruning

  ghost predicate Ordered(times: seq<Seconds>) {
    forall i, j :: 0 <= i < j < |times| ==> times[i] <= times[j]
  }

  lemma {:induction false} ActiveSplit(a: seq<Seconds>, b: seq<Seconds>, now: Seconds, window: Seconds)
    ensures Active(a + b, now, window) == Active(a, now, window) + Active(b, now, window)
  {
    if b == [] {
      assert a + b == a;
    } else {
      var front := b[..|b| - 1];
      assert (a + b)[..|a + b| - 1] == a + front;
      ActiveSplit(a, front, now, window);
    }
  }

  lemma ActiveOne(x: Seconds, now: Seconds, window: Seconds)
    ensures Active([x], now, window) == if now - x < window then [x] else []
  {
    assert [x][..0] == [];
  }

  /** What has left the window stays out of it: pruning at one time changes nothing at later times. */
  lemma {:induction false} ActiveTwice(times: seq<Seconds>, now: Seconds, later: Seconds, window: Seconds)
    requires now <= later
    ensures Active(Active(times, now, window), later, window) == Active(times, later, window)
  {
    if times != [] {
      var front, last := times[..|times| - 1], times[|times| - 1];
      ActiveTwice(front, now, later, window);
      if now - last < window {
        ActiveSplit(Active(front, now, window), [last], later, window);
        ActiveOne(last, later, window);
      } else {
        assert Active(times, now, window) == Active(front, now, window);
        assert Active(times, later, window) == Active(front, later, window);
      }
    }
  }

  lemma {:induction false} ActiveOrdered(times: seq<Seconds>, now: Seconds, window: Seconds)
    requires Ordered(times)
    ensures Ordered(Active(times, now, window))
    ensures forall x :: x in Active(times, now, window) ==> x in times && now - x < window
    ensures |Active(times, now, window)| <= |times|
  {
    if times != [] {
      ActiveOrdered(times[..|times| - 1], now, window);
      var active := Active(times[..|times| - 1], now, window);
      forall i | 0 <= i < |active|
        ensures active[i] <= times[|times| - 1]
      {
        assert active[i] in active;
        assert active[i] in times[..|times| - 1];
      }
    }
  }

  // Starts in order: those still active are the most recent ones.
  lemma {:induction false} ActiveSuffix(times: seq<Seconds>, now: Seconds, window: Seconds)
    requires Ordered(times)
    ensures |Active(times, now, window)| <= |times|
    ensures Active(times, now, window) == times[|times| - |Active(times, now, window)|..]
    ensures forall i :: 0 <= i < |times| ==> (now - times[i] < window <==> |times| - |Active(times, now, window)| <= i)
  {
    if times != [] {
      var front, last := times[..|times| - 1], times[|times| - 1];
      ActiveSuffix(front, now, window);
      if now - last < window {
        assert times == front + [last];
      } else {
        forall i | 0 <= i < |front|
          ensures !(now - front[i] < window)
        {
          assert times[i] <= last;
        }
      }
    }
  }

  // ---------------------------------------------------------------- the invariant

  /** The pruned list decides as the full history would, the history respects the limits, and the clock is past it. */
  ghost predicate Good(d: State, lastClock: Option<Seconds>) {
    && Ordered(d.history) && Ordered(d.starts)
    && d.lastStart == (if d.history == [] then None else Some(d.history[|d.history| - 1]))
    && (d.history != [] ==> lastClock.Some? && d.history[|d.history| - 1] <= lastClock.value)
    && (forall now :: (d.lastStart.Some? ==> d.lastStart.value <= now) ==>
          Active(d.starts, now, d.limits.window) == Active(d.history, now, d.limits.window))
    && forall i :: 0 <= i < |d.history| ==> SpacedAt(d.history, d.limits, i)
  }

  // Start `i` leaves room in the window that ends with it, and keeps its distance from the one before.
  ghost predicate SpacedAt(history: seq<Seconds>, limits: Limits, i: nat)
    requires i < |history|
  {
    && |Active(history[..i + 1], history[i], limits.window)| <= limits.count
    && (i > 0 ==> history[i - 1] + limits.interval <= history[i])
  }

  ghost predicate AllGood(w: Whole) {
    forall k :: k in w.domains ==> Good(w.domains[k], w.lastClock)
  }

  lemma NewGood(limits: Limits, lastClock: Option<Seconds>)
    ensures Good(NewState(limits), lastClock)
  {
  }

  lemma LaterGood(d: State, before: Option<Seconds>, after: Option<Seconds>)
    requires Good(d, before) && (before.Some? ==> after.Some? && before.value <= after.value)
    ensures Good(d, after)
  {
  }

  lemma ClockAfterStart(d: State, lastClock: Option<Seconds>, now: Seconds)
    requires Good(d, lastClock) && ClockOk(lastClock, now)
    ensures d.lastStart.Some? ==> d.lastStart.value <= now
  {
  }

  /** The decision of the pruned list is the decision of the full history. */
  lemma PrunedDecidesAlike(d: State, lastClock: Option<Seconds>, now: Seconds)
    requires Good(d, lastClock) && ClockOk(lastClock, now)
    ensures Admitted(d, now) <==> Admitted(d.(starts := d.history), now)
    ensures Hint(d, now) == Hint(d.(starts := d.history), now)
  {
    ClockAfterStart(d, lastClock, now);
  }

  // An active start has not left the window: a full window always means waiting.
  lemma WindowFull(d: State, lastClock: Option<Seconds>, now: Seconds)
    requires Good(d, lastClock)
    ensures WindowWait(d, now) == 0.0 <==> |Active(d.starts, now, d.limits.window)| < d.limits.count
  {
    ActiveOrdered(d.starts, now, d.limits.window);
    var active := Active(d.starts, now, d.limits.window);
    if |active| >= d.limits.count {
      assert active[|active| - d.limits.count] in active;
    }
  }

  lemma StartOrdered(d: State, lastClock: Option<Seconds>, now: Seconds)
    requires Good(d, lastClock) && ClockOk(lastClock, now)
    ensures Ordered(d.history + [now]) && Ordered(Active(d.starts, now, d.limits.window) + [now])
  {
    ClockAfterStart(d, lastClock, now);
    ActiveOrdered(d.history, now, d.limits.window);
    var active := Active(d.starts, now, d.limits.window);
    forall i | 0 <= i < |active|
      ensures active[i] <= now
    {
      assert active[i] in active;
      assert active[i] in d.history;
    }
  }

  lemma StartPruned(d: State, lastClock: Option<Seconds>, now: Seconds, later: Seconds)
    requires Good(d, lastClock) && ClockOk(lastClock, now) && now <= later
    ensures var window := d.limits.window;
            Active(Active(d.starts, now, window) + [now], later, window) == Active(d.history + [now], later, window)
  {
    var window := d.limits.window;
    ClockAfterStart(d, lastClock, now);
    ActiveSplit(Active(d.starts, now, window), [now], later, window);
    ActiveSplit(d.history, [now], later, window);
    ActiveTwice(d.history, now, later, window);
  }

  lemma StartSpaced(d: State, lastClock: Option<Seconds>, now: Seconds)
    requires Good(d, lastClock) && ClockOk(lastClock, now) && Admitted(d, now)
    ensures SpacedAt(d.history + [now], d.limits, |d.history|)
  {
    ClockAfterStart(d, lastClock, now);
    WindowFull(d, lastClock, now);
    var all := d.history + [now];
    assert all[..|d.history| + 1] == all;
    ActiveSplit(d.history, [now], now, d.limits.window);
    ActiveOne(now, now, d.limits.window);
  }

  /** A start keeps the invariant. */
  lemma StartedGood(d: State, lastClock: Option<Seconds>, now: Seconds)
    requires Good(d, lastClock) && ClockOk(lastClock, now) && Admitted(d, now)
    ensures Good(Started(d, now), Some(now))
  {
    hide Admitted, ClockOk, SpacedAt, Active;
    StartOrdered(d, lastClock, now);
    StartSpaced(d, lastClock, now);
    forall later | now <= later {
      StartPruned(d, lastClock, now, later);
    }
    forall i | 0 <= i < |d.history|
      ensures SpacedAt(d.history + [now], d.limits, i)
    {
      SpacedInFront(d.history, d.history + [now], d.limits, i);
    }
  }

  lemma SpacedInFront(front: seq<Seconds>, history: seq<Seconds>, limits: Limits, i: nat)
    requires front <= history && i < |front|
    ensures SpacedAt(front, limits, i) <==> SpacedAt(history, limits, i)
  {
    assert front[..i + 1] == history[..i + 1];
  }

  // ---------------------------------------------------------------- whole calls, with calls inside their sends

  // What a call does not touch: limits never change, clocks and cooldowns only advance, histories only grow, no start is
  // added inside a cooldown, and a domain with an attempt in flight stays exactly as it is.
  ghost predicate Advances(before: Whole, after: Whole) {
    && (before.lastClock.Some? ==> after.lastClock.Some? && before.lastClock.value <= after.lastClock.value)
    && forall k :: k in before.domains ==>
         && k in after.domains && after.domains[k].limits == before.domains[k].limits
         && before.domains[k].history <= after.domains[k].history
         && NoneWithin(after.domains[k].history, |before.domains[k].history|, before.domains[k].cooldown)
         && before.domains[k].cooldown <= after.domains[k].cooldown
         && after.domains[k].occupied == before.domains[k].occupied
         && (before.domains[k].occupied ==> after.domains[k] == before.domains[k])
  }

  // From the `n`th on, no start comes before the deadline.
  ghost predicate NoneWithin(history: seq<Seconds>, n: nat, deadline: Seconds) {
    forall i :: n <= i < |history| ==> deadline <= history[i]
  }

  lemma AdvancesTransitive(a: Whole, b: Whole, c: Whole)
    requires Advances(a, b) && Advances(b, c)
    ensures Advances(a, c)
  {
  }

  lemma StartGood(w: Whole, call: Call)
    requires AllGood(w) && ClockOk(w.lastClock, call.clock)
    requires var d := StateOf(w, call.domain, call.limits); d.limits == call.limits && Admitted(d, call.clock)
    ensures AllGood(Whole(w.domains[call.domain := Started(StateOf(w, call.domain, call.limits), call.clock)], Some(call.clock)))
  {
    hide Good, Admitted;
    var d := StateOf(w, call.domain, call.limits);
    NewGood(call.limits, w.lastClock);
    StartedGood(d, w.lastClock, call.clock);
    forall k | k in w.domains && k != call.domain {
      LaterGood(w.domains[k], w.lastClock, Some(call.clock));
    }
  }

  lemma FinishGood(w: Whole, call: Call)
    requires AllGood(w) && call.domain in w.domains
    ensures var (after, clock, result) := Received(w.domains[call.domain], w.lastClock, call);
            AllGood(Whole(w.domains[call.domain := after], clock))
  {
    var (after, clock, result) := Received(w.domains[call.domain], w.lastClock, call);
    SameTimesGood(w.domains[call.domain], after, w.lastClock);
    hide Good;
    LaterGood(after, w.lastClock, clock);
    forall k | k in w.domains && k != call.domain {
      LaterGood(w.domains[k], w.lastClock, clock);
    }
  }

  lemma SameTimesGood(d: State, after: State, lastClock: Option<Seconds>)
    requires Good(d, lastClock)
    requires after == d.(occupied := after.occupied, cooldown := after.cooldown)
    ensures Good(after, lastClock)
  {
  }

  /** Every call, however its sends call back, keeps the invariant, never disturbs a domain that is in flight, and
      leaves no domain in flight that was not before. */
  lemma {:induction false} AttemptGood(w: Whole, call: Call)
    requires AllGood(w)
    ensures AllGood(Outcome(w, call).0) && Advances(w, Outcome(w, call).0)
    ensures forall k :: k in Outcome(w, call).0.domains && Outcome(w, call).0.domains[k].occupied ==> k in w.domains
    decreases call, |call.nested| + 1
  {
    hide AllGood, Admitted, Received;
    var d := StateOf(w, call.domain, call.limits);
    if ClockOk(w.lastClock, call.clock) && d.limits == call.limits && Admitted(d, call.clock) {
      StartGood(w, call);
      NotInFlight(d, call.clock);
      var begun := Whole(w.domains[call.domain := Started(d, call.clock)], Some(call.clock));
      AttemptsGood(begun, call, |call.nested|);
      var sent := Nested(begun, call, |call.nested|);
      FinishGood(sent, call);
      ReceivedKeeps(sent.domains[call.domain], sent.lastClock, call);
      CallAdvances(w, call, sent);
    }
  }

  lemma {:induction false} AttemptsGood(w: Whole, call: Call, n: nat)
    requires AllGood(w) && n <= |call.nested|
    ensures AllGood(Nested(w, call, n)) && Advances(w, Nested(w, call, n))
    ensures forall k :: k in Nested(w, call, n).domains && Nested(w, call, n).domains[k].occupied ==> k in w.domains
    decreases call, n
  {
    hide AllGood, Outcome;
    if n > 0 {
      AttemptsGood(w, call, n - 1);
      AttemptGood(Nested(w, call, n - 1), call.nested[n - 1]);
      AdvancesTransitive(w, Nested(w, call, n - 1), Nested(w, call, n));
    }
  }

  lemma NotInFlight(d: State, now: Seconds)
    requires Admitted(d, now)
    ensures !d.occupied && d.cooldown <= now
  {
  }

  lemma ReceivedKeeps(d: State, lastClock: Option<Seconds>, call: Call)
    ensures var (after, clock, result) := Received(d, lastClock, call);
            && after.limits == d.limits && after.history == d.history && !after.occupied && d.cooldown <= after.cooldown
            && after.lastStart == d.lastStart && after.starts == d.starts
            && (lastClock.Some? ==> clock.Some? && lastClock.value <= clock.value)
  {
  }

  lemma CallAdvances(w: Whole, call: Call, sent: Whole)
    requires var d := StateOf(w, call.domain, call.limits);
             && ClockOk(w.lastClock, call.clock) && d.limits == call.limits && !d.occupied && d.cooldown <= call.clock
             && Advances(Whole(w.domains[call.domain := Started(d, call.clock)], Some(call.clock)), sent)
    ensures call.domain in sent.domains
    ensures var (after, clock, result) := Received(sent.domains[call.domain], sent.lastClock, call);
            Advances(w, Whole(sent.domains[call.domain := after], clock))
  {
    ReceivedKeeps(sent.domains[call.domain], sent.lastClock, call);
    hide Received, Active;
  }

  // ---------------------------------------------------------------- over whole runs

  /** The state after a sequence of calls from outside. */
  function Run(calls: seq<Call>): Whole {
    if calls == [] then Whole(map[], None) else Outcome(Run(calls[..|calls| - 1]), calls[|calls| - 1]).0
  }

  lemma {:induction false} RunGood(calls: seq<Call>)
    ensures AllGood(Run(calls))
  {
    hide AllGood, Outcome;
    if calls == [] {
      assert AllGood(Whole(map[], None)) by { EmptyGood(); }
    } else {
      RunGood(calls[..|calls| - 1]);
      AttemptGood(Run(calls[..|calls| - 1]), calls[|calls| - 1]);
    }
  }

  lemma EmptyGood()
    ensures AllGood(Whole(map[], None))
  {
  }

  /** Over every run, calls made from inside sends included: in the window ending with any start of a domain there are
      at most as many starts as its limit allows, and consecutive starts are at least the interval apart. */
  lemma RunSpaced(calls: seq<Call>, k: Id, i: nat)
    requires k in Run(calls).domains && i < |Run(calls).domains[k].history|
    ensures SpacedAt(Run(calls).domains[k].history, Run(calls).domains[k].limits, i)
  {
    hide Run, SpacedAt;
    RunGood(calls);
    GoodSpaced(Run(calls).domains[k], Run(calls).lastClock, i);
  }

  lemma GoodSpaced(d: State, lastClock: Option<Seconds>, i: nat)
    requires Good(d, lastClock) && i < |d.history|
    ensures SpacedAt(d.history, d.limits, i)
  {
  }

  // Starts after `from`, up to `to`.
  function CountIn(times: seq<Seconds>, from: Seconds, to: Seconds): nat {
    if times == [] then 0
    else CountIn(times[..|times| - 1], from, to) + (if from < times[|times| - 1] <= to then 1 else 0)
  }

  lemma {:induction false} CountedActive(times: seq<Seconds>, from: Seconds, to: Seconds, now: Seconds, window: Seconds)
    requires now - window <= from
    ensures CountIn(times, from, to) <= |Active(times, now, window)|
  {
    if times != [] {
      CountedActive(times[..|times| - 1], from, to, now, window);
    }
  }

  lemma {:induction false} SpacedWindows(times: seq<Seconds>, limits: Limits, to: Seconds)
    requires Ordered(times) && forall i :: 0 <= i < |times| ==> SpacedAt(times, limits, i)
    ensures CountIn(times, to - limits.window, to) <= limits.count
  {
    if times != [] {
      var front, last := times[..|times| - 1], times[|times| - 1];
      if last <= to {
        assert times[..|times|] == times && SpacedAt(times, limits, |times| - 1);
        CountedActive(times, to - limits.window, to, last, limits.window);
      } else {
        forall i | 0 <= i < |front|
          ensures SpacedAt(front, limits, i)
        {
          SpacedInFront(front, times, limits, i);
        }
        SpacedWindows(front, limits, to);
      }
    }
  }

  /** Over every run no window of a domain's length, wherever it ends, holds more starts than its limit allows. */
  lemma WindowSafety(calls: seq<Call>, k: Id, to: Seconds)
    requires k in Run(calls).domains
    ensures var d := Run(calls).domains[k];
            CountIn(d.history, to - d.limits.window, to) <= d.limits.count
  {
    RunGood(calls);
    hide Run, Active;
    var d := Run(calls).domains[k];
    SpacedWindows(d.history, d.limits, to);
  }

  lemma {:induction false} RunAdvances(calls: seq<Call>, i: nat)
    requires i <= |calls|
    ensures Advances(Run(calls[..i]), Run(calls))
    decreases |calls|
  {
    hide Advances, AllGood, Outcome;
    if i == |calls| {
      assert calls[..i] == calls;
      AdvancesItself(Run(calls));
    } else {
      var front := calls[..|calls| - 1];
      assert front[..i] == calls[..i];
      RunAdvances(front, i);
      RunGood(front);
      AttemptGood(Run(front), calls[|calls| - 1]);
      AdvancesTransitive(Run(calls[..i]), Run(front), Run(calls));
    }
  }

  lemma AdvancesItself(w: Whole)
    ensures Advances(w, w)
  {
  }

  /** Over every run no start of a domain falls inside a cooldown: once a call was told to retry only after some time,
      every later start of its domain comes at or after the deadline. */
  lemma CooldownSafety(calls: seq<Call>, i: nat, n: nat)
    requires i < |calls| && calls[i].domain in Run(calls[..i + 1]).domains
    requires var told := Outcome(Run(calls[..i]), calls[i]).1; told.Failed? && told.retryAfter.Some?
    ensures calls[i].domain in Run(calls).domains
    ensures |Run(calls[..i + 1]).domains[calls[i].domain].history| <= n < |Run(calls).domains[calls[i].domain].history| ==>
              calls[i].received + Outcome(Run(calls[..i]), calls[i]).1.retryAfter.value <= Run(calls).domains[calls[i].domain].history[n]
  {
    assert calls[..i + 1][..i] == calls[..i];
    RunAdvances(calls, i + 1);
    CooldownRecorded(Run(calls[..i]), calls[i]);
    hide Outcome, Run;
  }

  lemma CooldownRecorded(w: Whole, call: Call)
    requires Outcome(w, call).1.Failed? && Outcome(w, call).1.retryAfter.Some?
    ensures var k := call.domain;
            k in Outcome(w, call).0.domains
            && call.received + Outcome(w, call).1.retryAfter.value <= Outcome(w, call).0.domains[k].cooldown
  {
    hide Admitted, Nested;
  }

  /** In every run the pruned list of every domain decides each later call as its full history would. */
  lemma RunDecidesAlike(calls: seq<Call>, k: Id, now: Seconds)
    requires k in Run(calls).domains && ClockOk(Run(calls).lastClock, now)
    ensures var d := Run(calls).domains[k];
            (Admitted(d, now) <==> Admitted(d.(starts := d.history), now)) && Hint(d, now) == Hint(d.(starts := d.history), now)
  {
    hide Run, Good, Admitted, Hint;
    RunGood(calls);
    PrunedDecidesAlike(Run(calls).domains[k], Run(calls).lastClock, now);
  }

  // ---------------------------------------------------------------- what is admitted, and what an answer does

  // The starts of the history still inside the window.
  ghost function Recent(history: seq<Seconds>, now: Seconds, window: Seconds): set<int> {
    set i: int | 0 <= i < |history| && now - history[i] < window
  }

  lemma {:induction false} RecentCount(times: seq<Seconds>, now: Seconds, window: Seconds)
    ensures |Active(times, now, window)| == |Recent(times, now, window)|
  {
    if times != [] {
      var front, last := times[..|times| - 1], |times| - 1;
      RecentCount(front, now, window);
      assert Recent(times, now, window) == Recent(front, now, window) + if now - times[last] < window then {last} else {};
    }
  }

  /** An attempt may start exactly if none is in flight, the cooldown is over, the interval since the last start is over, and
      fewer starts of the whole history than allowed lie inside the window. */
  lemma AdmittedIff(d: State, lastClock: Option<Seconds>, now: Seconds)
    requires Good(d, lastClock) && ClockOk(lastClock, now)
    ensures Admitted(d, now) <==>
              && !d.occupied && d.cooldown <= now
              && (d.history != [] ==> d.history[|d.history| - 1] + d.limits.interval <= now)
              && |Recent(d.history, now, d.limits.window)| < d.limits.count
  {
    ClockAfterStart(d, lastClock, now);
    WindowFull(d, lastClock, now);
    RecentCount(d.history, now, d.limits.window);
    hide Active, Recent, WindowWait;
  }

  // A response as the coordinator accepts it.
  predicate Proper(response: Response) {
    && (response.retryAfter.Some? ==> 0.0 <= response.retryAfter.value)
    && (response.succeeded ==> response.payload && response.category == Ok && response.retryAfter.None?)
    && (!response.succeeded ==> !response.payload && response.category != Ok)
  }

  /** What a send records and answers: the domain is free again; success exactly for a proper successful response read at a
      valid clock; the cooldown is prolonged, never shortened, exactly by a proper response that asks for it. */
  lemma ReceivedIs(d: State, lastClock: Option<Seconds>, call: Call)
    ensures var (after, clock, result) := Received(d, lastClock, call);
            var proper := call.response.Some? && Proper(call.response.value);
            var read := 0.0 <= call.received && (lastClock.Some? ==> lastClock.value <= call.received);
            var asked := read && proper && call.response.value.retryAfter.Some?;
            && after == d.(occupied := false, cooldown := after.cooldown)
            && after.cooldown == (if asked && d.cooldown < call.received + call.response.value.retryAfter.value
                                  then call.received + call.response.value.retryAfter.value else d.cooldown)
            && clock == (if read then Some(call.received) else lastClock)
            && (result == Succeeded <==> read && proper && call.response.value.succeeded)
            && (result == Failed(InvalidClock, None) <==> !read)
            && (read && call.response.None? ==> result == Failed(TransportException, None))
            && (read && call.response.Some? && !proper ==> result == Failed(InvalidResponse, None))
            && (read && proper && !call.response.value.succeeded ==>
                  result == Failed(Category(call.response.value.category), call.response.value.retryAfter))
  {
  }

  // ---------------------------------------------------------------- the retry hint

  // With a full window now, it is still full later exactly until the start that must leave it has left.
  lemma WindowLater(d: State, lastClock: Option<Seconds>, now: Seconds, later: Seconds)
    requires Good(d, lastClock) && now <= later
    ensures WindowWait(d, later) == 0.0 <==> now + WindowWait(d, now) <= later
  {
    var window, count := d.limits.window, d.limits.count;
    WindowFull(d, lastClock, now);
    WindowFull(d, lastClock, later);
    ActiveSuffix(d.starts, now, window);
    ActiveSuffix(d.starts, later, window);
    var active, n := Active(d.starts, now, window), |d.starts|;
    if |active| >= count {
      assert active[|active| - count] == d.starts[n - count];
      assert now - d.starts[n - count] < window;
      assert later - d.starts[n - count] < window <==> |Active(d.starts, later, window)| >= count;
    } else {
      LaterFewer(d.starts, now, later, window);
    }
  }

  lemma {:induction false} LaterFewer(times: seq<Seconds>, now: Seconds, later: Seconds, window: Seconds)
    requires now <= later
    ensures |Active(times, later, window)| <= |Active(times, now, window)|
  {
    if times != [] {
      LaterFewer(times[..|times| - 1], now, later, window);
    }
  }

  /** The hint is exact: with nothing else changing, a later attempt is admitted if and only if it comes at or after
      `now` plus the hint. */
  lemma HintExact(d: State, lastClock: Option<Seconds>, now: Seconds, later: Seconds)
    requires Good(d, lastClock) && ClockOk(lastClock, now) && !Admitted(d, now) && !d.occupied && now <= later
    ensures Hint(d, now).Some? && 0.0 < Hint(d, now).value
    ensures Admitted(d, later) <==> now + Hint(d, now).value <= later
  {
    WindowLater(d, lastClock, now, later);
    WindowLater(d, lastClock, now, now);
    hide Active, WindowWait, Good;
  }

  /** A call blocked on an idle domain changes nothing, and the same call repeated later is sent exactly from the hinted time on. */
  lemma BlockedThenRetried(w: Whole, call: Call, later: Seconds)
    requires AllGood(w) && Outcome(w, call).1.Blocked? && Outcome(w, call).1.retryAfter.Some? && call.clock <= later
    ensures Outcome(w, call).0 == w
    ensures var again := Outcome(w, call.(clock := later));
            !again.1.Blocked? && !again.1.Refused? <==> call.clock + Outcome(w, call).1.retryAfter.value <= later
  {
    hide Good, Admitted, Nested, Outcome, Hint;
    var d := StateOf(w, call.domain, call.limits);
    BlockedFacts(w, call);
    NewGood(call.limits, w.lastClock);
    IdleHint(d, call.clock);
    HintExact(d, w.lastClock, call.clock, later);
    SentIff(w, call.(clock := later));
  }

  lemma BlockedFacts(w: Whole, call: Call)
    requires Outcome(w, call).1.Blocked?
    ensures var d := StateOf(w, call.domain, call.limits);
            ClockOk(w.lastClock, call.clock) && d.limits == call.limits && !Admitted(d, call.clock)
            && Outcome(w, call) == (w, Blocked(Hint(d, call.clock)))
  {
    hide Admitted, Nested;
  }

  lemma SentIff(w: Whole, call: Call)
    requires ClockOk(w.lastClock, call.clock) && StateOf(w, call.domain, call.limits).limits == call.limits
    ensures !Outcome(w, call).1.Blocked? && !Outcome(w, call).1.Refused? <==> Admitted(StateOf(w, call.domain, call.limits), call.clock)
  {
    hide Admitted, Nested;
  }

  lemma IdleHint(d: State, now: Seconds)
    ensures Hint(d, now).Some? <==> !d.occupied
  {
  }

  /** Inside a send, every further call on the same domain is refused: there is never a second attempt in flight. */
  lemma NoSecondInFlight(w: Whole, call: Call)
    requires call.domain in w.domains && w.domains[call.domain].occupied
    ensures Outcome(w, call).0 == w && (Outcome(w, call).1.Refused? || Outcome(w, call).1 == Blocked(None))
  {
    hide Received, Nested;
  }

  // ---------------------------------------------------------------- the coordinator itself

  lemma SentIs(w: Whole, call: Call)
    ensures var d := StateOf(w, call.domain, call.limits);
            var back := Nested(Whole(w.domains[call.domain := Started(d, call.clock)], Some(call.clock)), call, |call.nested|);
            var (after, clock, result) := Received(back.domains[call.domain], back.lastClock, call);
            Sent(w, call) == (Whole(back.domains[call.domain := after], clock), result)
  {
  }

  lemma OutcomeIs(w: Whole, call: Call)
    ensures var d := StateOf(w, call.domain, call.limits);
            Outcome(w, call) == if !ClockOk(w.lastClock, call.clock) then (w, Refused(InvalidInput))
                                else if d.limits != call.limits then (w, Refused(ConflictingDomain))
                                else if !Admitted(d, call.clock) then (w, Blocked(Hint(d, call.clock)))
                                else Sent(w, call)
  {
  }

  class Domain {
    const limits: Limits
    var occupied: bool
    var lastStart: Option<Seconds>
    var starts: seq<Seconds>
    var cooldown: Seconds
    ghost var history: seq<Seconds>

    ghost function Now(): State
      reads this
    {
      State(limits, occupied, lastStart, starts, cooldown, history)
    }

    constructor (bounds: Limits)
      ensures Now() == NewState(bounds)
    {
      limits := bounds;
      occupied, lastStart, starts, cooldown, history := false, None, [], 0.0, [];
    }

    // Keep only the starts still inside the window.
    method Prune(now: Seconds) returns (active: seq<Seconds>)
      ensures active == Active(starts, now, limits.window)
    {
      active := [];
      for i := 0 to |starts|
        invariant active == Active(starts[..i], now, limits.window)
      {
        assert starts[..i + 1][..i] == starts[..i];
        if now - starts[i] < limits.window {
          active := active + [starts[i]];
        }
      }
      assert starts[..|starts|] == starts;
    }

    method Begin(now: Seconds)
      modifies this
      ensures Now() == Started(old(Now()), now)
    {
      var active := Prune(now);
      occupied, lastStart, starts, history := true, Some(now), active + [now], history + [now];
    }

    // What the four gates say: `None` if the attempt may start, otherwise the answer to give.
    method Check(now: Seconds) returns (refusal: Option<Result>)
      ensures refusal == if Admitted(Now(), now) then None else Some(Blocked(Hint(Now(), now)))
    {
      var active := Prune(now);
      var interval := if lastStart.Some? then Max(0.0, lastStart.value + limits.interval - now) else 0.0;
      var window := if |active| >= limits.count then Max(0.0, active[|active| - limits.count] + limits.window - now) else 0.0;
      var cooling := Max(0.0, cooldown - now);
      if cooling == 0.0 && !occupied && interval == 0.0 && window == 0.0 {
        return None;
      }
      return Some(Blocked(if occupied then None else Some(Max(cooling, Max(interval, window)))));
    }
  }

  // Domains are never replaced or forgotten.
  ghost predicate Kept(before: map<Id, Domain>, after: map<Id, Domain>) {
    forall k :: k in before ==> k in after && after[k] == before[k]
  }

  lemma KeptTransitively(a: map<Id, Domain>, b: map<Id, Domain>, c: map<Id, Domain>, k: Id)
    requires Kept(a, b) && Kept(b, c) && k in b
    ensures Kept(a, c) && k in c && c[k] == b[k]
  {
  }

  class Coordinator {
    var domains: map<Id, Domain>
    var lastClock: Option<Seconds>

    ghost predicate Separate()
      reads this
    {
      forall k, l | k in domains && l in domains :: k != l ==> domains[k] != domains[l]
    }

    ghost function Snapshot(): Whole
      reads this, domains.Values
    {
      Whole(map k | k in domains :: domains[k].Now(), lastClock)
    }

    constructor ()
      ensures Separate() && Snapshot() == Whole(map[], None)
    {
      domains, lastClock := map[], None;
    }

    /** Send at most once, or say at once what forbids it; the transport may call back while the send is in flight. */
    method Attempt(call: Call) returns (result: Result)
      requires Separate()
      modifies this, domains.Values
      ensures Separate() && Kept(old(domains), domains) && fresh(domains.Values - old(domains.Values))
      ensures Snapshot() == Outcome(old(Snapshot()), call).0
      ensures result == Outcome(old(Snapshot()), call).1
      decreases call, 3
    {
      hide Outcome, Sent, Admitted, Hint, ClockOk;
      if !ClockOk(lastClock, call.clock) {
        OutcomeIs(Snapshot(), call);
        return Refused(InvalidInput);
      }
      var domain: Domain;
      if call.domain in domains {
        domain := domains[call.domain];
      } else {
        domain := new Domain(call.limits);
      }
      assert domain.Now() == StateOf(Snapshot(), call.domain, call.limits);
      OutcomeIs(Snapshot(), call);
      if domain.limits != call.limits {
        return Refused(ConflictingDomain);
      }
      var refusal := domain.Check(call.clock);
      if refusal.Some? {
        return refusal.value;
      }
      result := Send(domain, call);
    }

    // An admitted attempt: the domain is occupied from its start until the response has been received.
    method Send(domain: Domain, call: Call) returns (result: Result)
      requires Separate() && ClockOk(lastClock, call.clock)
      requires domain.Now() == StateOf(Snapshot(), call.domain, call.limits)
      requires if call.domain in domains then domains[call.domain] == domain else domain !in domains.Values
      modifies this, domains.Values, domain
      ensures Separate() && Kept(old(domains), domains) && fresh(domains.Values - old(domains.Values) - {domain})
      ensures (Snapshot(), result) == Sent(old(Snapshot()), call)
      decreases call, 2
    {
      hide Outcome, Received, Started, ClockOk, Nested, Sent, StateOf;
      SentIs(Snapshot(), call);
      InFlight(domain, call);
      result := Receive(domain, call);
    }

    // From the start of the send to the last call back.
    method InFlight(domain: Domain, call: Call)
      requires Separate() && domain.Now() == StateOf(Snapshot(), call.domain, call.limits)
      requires if call.domain in domains then domains[call.domain] == domain else domain !in domains.Values
      modifies this, domains.Values, domain
      ensures Separate() && Kept(old(domains), domains) && fresh(domains.Values - old(domains.Values) - {domain})
      ensures call.domain in domains && domains[call.domain] == domain
      ensures Snapshot() == Nested(Whole(old(Snapshot()).domains[call.domain := Started(old(domain.Now()), call.clock)], Some(call.clock)),
                                   call, |call.nested|)
      decreases call, 1
    {
      hide Outcome, Started, Nested, StateOf, Separate, Kept;
      Occupy(domain, call);
      ghost var entered := domains;
      CallBack(Snapshot(), call);
      KeptTransitively(old(domains), entered, domains, call.domain);
    }

    // Enter the domain, take the clock reading and start.
    method Occupy(domain: Domain, call: Call)
      requires Separate() && domain.Now() == StateOf(Snapshot(), call.domain, call.limits)
      requires if call.domain in domains then domains[call.domain] == domain else domain !in domains.Values
      modifies this, domain
      ensures Separate() && Kept(old(domains), domains) && domains.Values <= old(domains.Values) + {domain}
      ensures call.domain in domains && domains[call.domain] == domain
      ensures Snapshot() == Whole(old(Snapshot()).domains[call.domain := Started(old(domain.Now()), call.clock)], Some(call.clock))
    {
      hide Started, Active;
      domains := domains[call.domain := domain];
      lastClock := Some(call.clock);
      domain.Begin(call.clock);
      assert forall k :: k in domains && k != call.domain ==> domains[k] != domain;
    }

    // The calls made from inside the send.
    method CallBack(ghost begun: Whole, call: Call)
      requires Separate() && Snapshot() == begun
      modifies this, domains.Values
      ensures Separate() && Kept(old(domains), domains) && fresh(domains.Values - old(domains.Values))
      ensures Snapshot() == Nested(begun, call, |call.nested|)
      decreases call, 0
    {
      hide Outcome;
      for i := 0 to |call.nested|
        invariant Separate() && Kept(old(domains), domains) && fresh(domains.Values - old(domains.Values))
        invariant Snapshot() == Nested(begun, call, i)
      {
        var inner := Attempt(call.nested[i]);
      }
    }

    // The end of a send: the clock is read again, a cooldown is recorded, and the domain is free.
    method Receive(domain: Domain, call: Call) returns (result: Result)
      requires Separate() && call.domain in domains && domains[call.domain] == domain
      modifies this`lastClock, domain
      ensures Separate()
      ensures var (after, clock, answer) := Received(old(Snapshot()).domains[call.domain], old(lastClock), call);
              Snapshot() == Whole(old(Snapshot()).domains[call.domain := after], clock) && result == answer
    {
      assert forall k :: k in domains && k != call.domain ==> domains[k] != domain;
      result := Answer(domain, call);
    }

    method Answer(domain: Domain, call: Call) returns (result: Result)
      modifies this`lastClock, domain
      ensures (domain.Now(), lastClock, result) == Received(old(domain.Now()), old(lastClock), call)
    {
      var valid := call.response.Some? && IsValid(call.response.value);
      result := if valid && call.response.value.succeeded then Succeeded
                else Failed(if call.response.None? then TransportException
                            else if !valid then InvalidResponse else Category(call.response.value.category),
                            if valid then call.response.value.retryAfter else None);
      if !ClockOk(lastClock, call.received) {
        result := Failed(InvalidClock, None);
      } else {
        lastClock := Some(call.received);
        if valid && call.response.value.retryAfter.Some? {
          domain.cooldown := Max(domain.cooldown, call.received + call.response.value.retryAfter.value);
        }
      }
      domain.occupied := false;
    }
  }
}
