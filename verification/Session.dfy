/**
The session that every request of the price library goes through: each is classified, charts are sent once per kind,
one failed chart may be repeated once under the other strategy, and any anomaly poisons the session for good.
*/
module Session {
  import opened Basics

  datatype Method = Get | Post | OtherMethod
  datatype Host = Fc | Query1 | Query2 | Guce | Consent | OtherHost
  datatype Path = Root | CrumbPath | ChartPath(symbol: Id) | ConsentPath | CollectPath | CopyPath | OtherPath

  // A URL as split into its parts; `plain` means no user, password, port or fragment beside the host.
  datatype Url = Url(text: Id, https: bool, plain: bool, host: Host, path: Path)

  datatype Endpoint = CookieBasic | CrumbBasic | CrumbCsrf | Chart | ConsentForm | ConsentCollect | ConsentCopy
  datatype Identity = Identity(verb: Method, host: Host, endpoint: Endpoint)

  datatype Key = Range | Interval | Period1 | Period2 | Crumb | OtherKey(name: Id)
  type Params = map<Key, Id>
  const ONE_DAY: Id := 1

  datatype Kind = History | Timezone
  datatype Strategy = Basic | Csrf

  // The exact target of a chart: verb, URL, kind and every parameter but the crumb.
  datatype Target = Target(verb: Method, url: Url, kind: Kind, params: Params)

  datatype Receipt = Receipt(raw: bool, audit: bool, status: int, wellFormed: bool)

  /** One request, with what happens during its exchange: the calls back into the session, and the receipt unless the port
      raises. `bound` says whether the parameters of a chart agree with the intent the session is bound to, if any. */
  datatype Call = Call(verb: Method, url: Url, params: Option<Params>, unapproved: bool, retries: bool, bound: bool,
                       nested: seq<Call>, receipt: Option<Receipt>)

  datatype Sending = Sending(identity: Identity, chart: Option<Target>, strategy: Strategy, status: Option<int>)

  datatype State = State(active: bool, poisoned: bool, finalized: bool, pending: Option<Target>, fallbackUsed: bool,
                         strategy: Strategy, failedStrategy: Option<Strategy>, chartSent: set<Kind>, sent: seq<Sending>)

  const START := State(false, false, false, None, false, Basic, None, {}, [])

  datatype Reply = Answered(status: int) | Raised

  // ---------------------------------------------------------------- classification

  function Classify(verb: Method, url: Url, symbol: Id): Option<Identity> {
    if !url.https || !url.plain then None
    else if verb == Get && url.host == Fc && url.path == Root then Some(Identity(verb, url.host, CookieBasic))
    else if verb == Get && (url.host == Query1 || url.host == Query2) && url.path == CrumbPath then
      Some(Identity(verb, url.host, if url.host == Query1 then CrumbBasic else CrumbCsrf))
    else if verb == Get && url.host == Query2 && url.path.ChartPath? then
      if url.path.symbol == symbol then Some(Identity(verb, url.host, Chart)) else None
    else if verb == Get && url.host == Guce && url.path == ConsentPath then Some(Identity(verb, url.host, ConsentForm))
    else if verb == Post && url.host == Consent && url.path == CollectPath then Some(Identity(verb, url.host, ConsentCollect))
    else if verb == Get && url.host == Guce && url.path == CopyPath then Some(Identity(verb, url.host, ConsentCopy))
    else None
  }

  // `None` for parameters that are refused.
  function ChartKind(params: Option<Params>): Option<Kind> {
    if params.None? then Some(History)
    else if Range in params.value && params.value[Range] == ONE_DAY && Interval in params.value && params.value[Interval] == ONE_DAY then
      if Period1 in params.value || Period2 in params.value then None else Some(Timezone)
    else if Range in params.value then None
    else Some(History)
  }

  function TargetOf(call: Call, kind: Kind): Target {
    Target(call.verb, call.url, kind, if call.params.None? then map[] else call.params.value - {Crumb})
  }

  function StrategyAfter(strategy: Strategy, endpoint: Endpoint): Strategy {
    match endpoint
    case CrumbBasic => Basic
    case CookieBasic => Basic
    case CrumbCsrf => Csrf
    case ConsentForm => Csrf
    case ConsentCollect => Csrf
    case ConsentCopy => Csrf
    case Chart => strategy
  }

  predicate Acceptable(receipt: Receipt, identity: Identity) {
    && (receipt.raw || receipt.audit) && (identity.endpoint == Chart ==> receipt.raw)
    && 100 <= receipt.status <= 599 && receipt.wellFormed
  }

  // ---------------------------------------------------------------- one request

  function Poison(s: State): State {
    s.(poisoned := true)
  }

  // What must be true of a chart for it to be sent now.
  predicate MayChart(s: State, target: Target) {
    if s.pending.None? then target.kind !in s.chartSent
    else !s.fallbackUsed && target == s.pending.value && Some(s.strategy) != s.failedStrategy
  }

  // Just before the exchange.
  function Dispatched(s: State, identity: Identity, chart: Option<Target>): State {
    s.(active := true, fallbackUsed := s.fallbackUsed || (chart.Some? && s.pending.Some?),
       sent := s.sent + [Sending(identity, chart, s.strategy, None)])
  }

  // After the exchange.
  function Concluded(s: State, identity: Identity, chart: Option<Target>, receipt: Option<Receipt>, at: nat): (State, Reply) {
    var idle := s.(active := false);
    if receipt.None? || !Acceptable(receipt.value, identity) then (Poison(idle), Raised)
    else
      var status := receipt.value.status;
      var noted := if at < |idle.sent| then idle.(sent := idle.sent[at := idle.sent[at].(status := Some(status))]) else idle;
      if status == 429 || 300 <= status < 400 then (Poison(noted), Raised)
      else
        var judged :=
          if status >= 400 && !(identity.endpoint == CookieBasic && status == 404) then
            if chart.Some? && !noted.fallbackUsed && noted.pending.None? then
              noted.(pending := chart, failedStrategy := Some(noted.strategy))
            else Poison(noted)
          else if chart.Some? then noted.(pending := None)
          else noted;
        (if chart.Some? then judged.(chartSent := judged.chartSent + {chart.value.kind}) else judged, Answered(status))
  }

  /** What one request does to the session for `symbol`. */
  function Request(s: State, symbol: Id, call: Call): (State, Reply)
    decreases call, |call.nested| + 1
  {
    if s.poisoned || s.finalized || s.active || call.retries || call.unapproved then (Poison(s), Raised)
    else
      var identity := Classify(call.verb, call.url, symbol);
      if identity.None? then (Poison(s), Raised)
      else if identity.value.endpoint != Chart then
        var ready := s.(strategy := StrategyAfter(s.strategy, identity.value.endpoint));
        Exchange(ready, symbol, call, identity.value, None)
      else
        var kind := ChartKind(call.params);
        if !call.bound || kind.None? || !MayChart(s, TargetOf(call, kind.value)) then (Poison(s), Raised)
        else Exchange(s, symbol, call, identity.value, Some(TargetOf(call, kind.value)))
  }

  function Exchange(s: State, symbol: Id, call: Call, identity: Identity, chart: Option<Target>): (State, Reply)
    decreases call, |call.nested|
  {
    var back := CalledBack(Dispatched(s, identity, chart), symbol, call, |call.nested|);
    Concluded(back, identity, chart, call.receipt, |s.sent|)
  }

  // The first `n` requests made from inside the exchange.
  function CalledBack(s: State, symbol: Id, call: Call, n: nat): State
    requires n <= |call.nested|
    decreases call, 0, n
  {
    if n == 0 then s else Request(CalledBack(s, symbol, call, n - 1), symbol, call.nested[n - 1]).0
  }

  // A request from inside an exchange is refused and poisons the session.
  lemma {:induction false} CalledBackPoisons(s: State, symbol: Id, call: Call, n: nat)
    requires s.active && n <= |call.nested|
    ensures CalledBack(s, symbol, call, n) == if n == 0 then s else Poison(s)
  {
    if n > 0 {
      CalledBackPoisons(s, symbol, call, n - 1);
    }
  }

  lemma ExchangeIs(s: State, symbol: Id, call: Call, identity: Identity, chart: Option<Target>)
    ensures var flown := Dispatched(s, identity, chart);
            Exchange(s, symbol, call, identity, chart)
            == Concluded(if call.nested == [] then flown else Poison(flown), identity, chart, call.receipt, |s.sent|)
  {
    CalledBackPoisons(Dispatched(s, identity, chart), symbol, call, |call.nested|);
  }

  predicate Complete(s: State) {
    History in s.chartSent && s.pending.None? && !s.poisoned
  }

  /** Finish once: a success only of a complete session, and only if the port accepts it. */
  function Finalize(s: State, success: bool, portAccepts: bool): State {
    if s.finalized || (success && !Complete(s)) || !portAccepts then s
    else s.(finalized := true, poisoned := true)
  }

  // ---------------------------------------------------------------- the invariant

  function Charts(sent: seq<Sending>): seq<Sending> {
    if sent == [] then []
    else Charts(sent[..|sent| - 1]) + (if sent[|sent| - 1].chart.Some? then [sent[|sent| - 1]] else [])
  }

  function KindsIn(charts: seq<Sending>): set<Kind> {
    set i | 0 <= i < |charts| && charts[i].chart.Some? :: charts[i].chart.value.kind
  }

  predicate Failed(status: Option<int>) {
    status.Some? && 400 <= status.value && status.value != 429
  }

  // A repeated chart is exactly the failed one, under the other strategy.
  predicate Repeats(first: Sending, second: Sending) {
    && first.chart == second.chart && first.strategy != second.strategy && Failed(first.status)
  }

  ghost predicate OnlyFallbacksRepeat(charts: seq<Sending>) {
    forall i, j | 0 <= i < j < |charts| ::
      charts[i].chart.Some? && charts[j].chart.Some? && charts[i].chart.value.kind == charts[j].chart.value.kind ==>
        Repeats(charts[i], charts[j])
  }

  ghost predicate Succeeded(charts: seq<Sending>, kind: Kind) {
    exists i :: 0 <= i < |charts| && charts[i].chart.Some? && charts[i].chart.value.kind == kind
                && charts[i].status.Some? && charts[i].status.value < 300
  }

  // Every chart of this kind so far is the one that failed and may be repeated.
  ghost predicate OnlyFailed(charts: seq<Sending>, target: Target, strategy: Option<Strategy>) {
    forall i :: 0 <= i < |charts| && charts[i].chart.Some? && charts[i].chart.value.kind == target.kind ==>
      charts[i].chart.value == target && Failed(charts[i].status) && strategy == Some(charts[i].strategy)
  }

  /** What holds between requests, whatever has been asked of the session. */
  ghost predicate Good(s: State) {
    var charts := Charts(s.sent);
    && !s.active && (s.finalized ==> s.poisoned)
    && OnlyFallbacksRepeat(charts)
    && |charts| <= |KindsIn(charts)| + (if s.fallbackUsed then 1 else 0)
    && (!s.poisoned ==>
          && KindsIn(charts) == s.chartSent
          && (forall kind :: kind in s.chartSent && (s.pending.None? || s.pending.value.kind != kind) ==> Succeeded(charts, kind))
          && (s.pending.Some? ==> !s.fallbackUsed && s.pending.value.kind in s.chartSent
                                  && OnlyFailed(charts, s.pending.value, s.failedStrategy)))
  }

  lemma StartGood()
    ensures Good(START)
  {
  }

  lemma ChartsAppend(sent: seq<Sending>, x: Sending)
    ensures Charts(sent + [x]) == Charts(sent) + if x.chart.Some? then [x] else []
  {
    assert (sent + [x])[..|sent|] == sent;
  }

  lemma {:induction false} ChartsAreCharts(sent: seq<Sending>)
    ensures forall i :: 0 <= i < |Charts(sent)| ==> Charts(sent)[i].chart.Some?
  {
    if sent != [] {
      ChartsAreCharts(sent[..|sent| - 1]);
    }
  }

  lemma KindsAppend(charts: seq<Sending>, x: Sending)
    requires x.chart.Some?
    ensures KindsIn(charts + [x]) == KindsIn(charts) + {x.chart.value.kind}
  {
    var all := charts + [x];
    assert all[|charts|] == x;
    forall kind | kind in KindsIn(charts)
      ensures kind in KindsIn(all)
    {
      var i :| 0 <= i < |charts| && charts[i].chart.Some? && charts[i].chart.value.kind == kind;
      assert all[i] == charts[i];
    }
  }

  lemma SucceededStays(charts: seq<Sending>, x: Sending, kind: Kind)
    requires Succeeded(charts, kind)
    ensures Succeeded(charts + [x], kind)
  {
    var i :| 0 <= i < |charts| && charts[i].chart.Some? && charts[i].chart.value.kind == kind
             && charts[i].status.Some? && charts[i].status.value < 300;
    assert (charts + [x])[i] == charts[i];
  }

  lemma NoSuchKind(charts: seq<Sending>, kind: Kind)
    requires kind !in KindsIn(charts)
    ensures forall i :: 0 <= i < |charts| && charts[i].chart.Some? ==> charts[i].chart.value.kind != kind
  {
  }

  // A chart is sent for the first time, or it is the one fallback.
  lemma OneMoreChart(s: State, x: Sending)
    requires Good(s) && !s.poisoned && x.chart.Some? && x.strategy == s.strategy && MayChart(s, x.chart.value)
    ensures var charts := Charts(s.sent) + [x];
            && OnlyFallbacksRepeat(charts)
            && |charts| <= |KindsIn(charts)| + (if s.fallbackUsed || s.pending.Some? then 1 else 0)
  {
    var charts := Charts(s.sent);
    var all := charts + [x];
    KindsAppend(charts, x);
    if s.pending.None? {
      NoSuchKind(charts, x.chart.value.kind);
      assert |KindsIn(charts) + {x.chart.value.kind}| == |KindsIn(charts)| + 1;
    } else {
      assert KindsIn(charts) + {x.chart.value.kind} == KindsIn(charts);
    }
    assert forall i | 0 <= i < |charts| && charts[i].chart.Some? && charts[i].chart.value.kind == x.chart.value.kind :: Repeats(charts[i], x);
    forall i, j | 0 <= i < j < |all| && all[i].chart.Some? && all[j].chart.Some? && all[i].chart.value.kind == all[j].chart.value.kind
      ensures Repeats(all[i], all[j])
    {
      if j < |charts| {
        assert all[i] == charts[i] && all[j] == charts[j];
      } else {
        assert all[i] == charts[i];
      }
    }
  }

  // The state after an exchange of a chart that was answered with `status`, or not at all.
  lemma ChartGood(s: State, after: State, x: Sending)
    requires Good(s) && !s.poisoned && x.chart.Some? && x.strategy == s.strategy && MayChart(s, x.chart.value)
    requires !after.active && after.sent == s.sent + [x] && after.finalized == s.finalized
    requires after.fallbackUsed == (s.fallbackUsed || s.pending.Some?)
    requires !after.poisoned ==>
               && after.chartSent == s.chartSent + {x.chart.value.kind}
               && x.status.Some?
               && if x.status.value < 300 then after.pending.None?
                  else Failed(x.status) && !after.fallbackUsed && s.pending.None? && after.pending == x.chart
                       && after.failedStrategy == Some(x.strategy)
    ensures Good(after)
  {
    var charts := Charts(s.sent);
    var all := charts + [x];
    ChartsAppend(s.sent, x);
    OneMoreChart(s, x);
    KindsAppend(charts, x);
    if !after.poisoned {
      assert all[|charts|] == x;
      forall kind | kind in after.chartSent && (after.pending.None? || after.pending.value.kind != kind)
        ensures Succeeded(all, kind)
      {
        if kind != x.chart.value.kind {
          SucceededStays(charts, x, kind);
        }
      }
      if after.pending.Some? {
        NoSuchKind(charts, x.chart.value.kind);
      }
    }
  }

  // Anything else that is sent leaves the charts alone.
  lemma OtherGood(s: State, after: State, x: Sending)
    requires Good(s) && !s.poisoned && x.chart.None? && !after.active && after.sent == s.sent + [x] && after.finalized == s.finalized
    requires after.fallbackUsed == s.fallbackUsed
    requires !after.poisoned ==> after.chartSent == s.chartSent && after.pending == s.pending && after.failedStrategy == s.failedStrategy
    ensures Good(after)
  {
    ChartsAppend(s.sent, x);
    assert Charts(s.sent) + [] == Charts(s.sent);
  }

  lemma ExchangeGood(s: State, symbol: Id, call: Call, identity: Identity, chart: Option<Target>)
    requires Good(s) && !s.poisoned && !s.finalized
    requires chart.Some? <==> identity.endpoint == Chart
    requires chart.Some? ==> MayChart(s, chart.value)
    ensures Good(Exchange(s, symbol, call, identity, chart).0)
  {
    hide Good, MayChart;
    ExchangeIs(s, symbol, call, identity, chart);
    var after := Exchange(s, symbol, call, identity, chart).0;
    var status := if call.receipt.Some? && Acceptable(call.receipt.value, identity) then Some(call.receipt.value.status) else None;
    var x := Sending(identity, chart, s.strategy, status);
    assert after.sent == s.sent + [x];
    if chart.Some? {
      ChartGood(s, after, x);
    } else {
      OtherGood(s, after, x);
    }
  }

  lemma PoisonGood(s: State)
    requires Good(s)
    ensures Good(Poison(s))
  {
  }

  lemma StrategyGood(s: State, strategy: Strategy)
    requires Good(s)
    ensures Good(s.(strategy := strategy))
  {
  }

  lemma RequestGood(s: State, symbol: Id, call: Call)
    requires Good(s)
    ensures Good(Request(s, symbol, call).0)
  {
    hide Good, Exchange, MayChart;
    PoisonGood(s);
    var identity := Classify(call.verb, call.url, symbol);
    if !(s.poisoned || s.finalized || s.active || call.retries || call.unapproved) && identity.Some? {
      if identity.value.endpoint != Chart {
        var ready := s.(strategy := StrategyAfter(s.strategy, identity.value.endpoint));
        StrategyGood(s, StrategyAfter(s.strategy, identity.value.endpoint));
        ExchangeGood(ready, symbol, call, identity.value, None);
      } else {
        var kind := ChartKind(call.params);
        if call.bound && kind.Some? && MayChart(s, TargetOf(call, kind.value)) {
          ExchangeGood(s, symbol, call, identity.value, Some(TargetOf(call, kind.value)));
        }
      }
    }
  }

  lemma FinalizeGood(s: State, success: bool, portAccepts: bool)
    requires Good(s)
    ensures Good(Finalize(s, success, portAccepts))
  {
  }

  lemma GoodCharts(s: State)
    requires Good(s)
    ensures |Charts(s.sent)| <= 3
  {
    AtMostTwoKinds(KindsIn(Charts(s.sent)));
  }

  lemma RequestKeeps(s: State, symbol: Id, call: Call)
    ensures Good(s) ==> Good(Request(s, symbol, call).0) && |Charts(Request(s, symbol, call).0.sent)| <= 3
  {
    hide Good, Request;
    if Good(s) {
      RequestGood(s, symbol, call);
      GoodCharts(Request(s, symbol, call).0);
    }
  }

  lemma FinalizeKeeps(s: State, success: bool, portAccepts: bool)
    ensures Good(s) ==> Good(Finalize(s, success, portAccepts)) && |Charts(Finalize(s, success, portAccepts).sent)| <= 3
  {
    hide Good, Finalize;
    if Good(s) {
      FinalizeGood(s, success, portAccepts);
      GoodCharts(Finalize(s, success, portAccepts));
    }
  }

  // ---------------------------------------------------------------- which requests are sent, and what their answers do

  // An approved request for the daily chart of the session's symbol.
  predicate AsksChart(call: Call, symbol: Id) {
    && call.verb == Get && call.url.https && call.url.plain && call.url.host == Query2 && call.url.path == ChartPath(symbol) && call.bound
  }

  // An approved request for a cookie, a crumb or consent.
  predicate AsksOther(call: Call) {
    && call.url.https && call.url.plain
    && (|| (call.verb == Get && call.url.host == Fc && call.url.path == Root)
        || (call.verb == Get && call.url.host in {Query1, Query2} && call.url.path == CrumbPath)
        || (call.verb == Get && call.url.host == Guce && call.url.path in {ConsentPath, CopyPath})
        || (call.verb == Post && call.url.host == Consent && call.url.path == CollectPath))
  }

  // One day in steps of a day, without a period, asks for the time zone; any chart without a range is a history.
  predicate OfKind(params: Option<Params>, kind: Kind) {
    match kind
    case Timezone =>
      && params.Some? && Range in params.value && params.value[Range] == ONE_DAY
      && Interval in params.value && params.value[Interval] == ONE_DAY
      && Period1 !in params.value && Period2 !in params.value
    case History => params.None? || Range !in params.value
  }

  lemma KindIff(params: Option<Params>, kind: Kind)
    ensures ChartKind(params) == Some(kind) <==> OfKind(params, kind)
  {
  }

  /** A target is everything a chart asks for but the crumb. */
  lemma TargetAims(call: Call, kind: Kind)
    ensures TargetOf(call, kind).verb == call.verb && TargetOf(call, kind).url == call.url && TargetOf(call, kind).kind == kind
    ensures forall key :: key in TargetOf(call, kind).params <==> key != Crumb && call.params.Some? && key in call.params.value
    ensures forall key :: key in TargetOf(call, kind).params ==> TargetOf(call, kind).params[key] == call.params.value[key]
  {
  }

  // The chart may go out: the first of its kind, or the one repetition of the failed target under the other strategy.
  predicate MayGo(s: State, target: Target) {
    && (s.pending.None? ==> target.kind !in s.chartSent)
    && (s.pending.Some? ==> !s.fallbackUsed && s.pending == Some(target) && s.failedStrategy != Some(s.strategy))
  }

  /** A request is sent exactly if the session is neither poisoned nor finished, nothing about it is unapproved, and it asks
      for a cookie, a crumb or consent, or for a chart that may go out; anything else poisons the session. */
  lemma SentIff(s: State, symbol: Id, call: Call)
    requires Good(s)
    ensures var after := Request(s, symbol, call).0;
            var sends := !s.poisoned && !s.finalized && !call.retries && !call.unapproved
                         && (AsksOther(call)
                             || (AsksChart(call, symbol) && exists kind :: OfKind(call.params, kind) && MayGo(s, TargetOf(call, kind))));
            && (|after.sent| == |s.sent| + 1 <==> sends)
            && (!sends ==> after == s.(poisoned := true))
  {
    GoodIdle(s);
    hide Good, Classify, Exchange, TargetOf, ChartKind, OfKind, AsksOther, AsksChart, MayChart, MayGo;
    ClassifyIff(call, symbol);
    KindIff(call.params, History);
    KindIff(call.params, Timezone);
    var identity := Classify(call.verb, call.url, symbol);
    if identity.Some? {
      ExchangeSends(s.(strategy := StrategyAfter(s.strategy, identity.value.endpoint)), symbol, call, identity.value, None);
      if ChartKind(call.params).Some? {
        MayGoIff(s, TargetOf(call, ChartKind(call.params).value));
        ExchangeSends(s, symbol, call, identity.value, Some(TargetOf(call, ChartKind(call.params).value)));
      }
    }
  }

  lemma ClassifyIff(call: Call, symbol: Id)
    ensures var identity := Classify(call.verb, call.url, symbol);
            && (identity.Some? && identity.value.endpoint != Chart <==> AsksOther(call))
            && (identity.Some? && identity.value.endpoint == Chart && call.bound <==> AsksChart(call, symbol))
  {
  }

  lemma MayGoIff(s: State, target: Target)
    ensures MayChart(s, target) <==> MayGo(s, target)
  {
  }

  lemma ExchangeSends(s: State, symbol: Id, call: Call, identity: Identity, chart: Option<Target>)
    ensures |Exchange(s, symbol, call, identity, chart).0.sent| == |s.sent| + 1
  {
    ExchangeIs(s, symbol, call, identity, chart);
  }

  lemma GoodIdle(s: State)
    requires Good(s)
    ensures !s.active
  {
  }

  // The answer is well formed, kept as it must be, and of this status.
  predicate AnsweredWith(call: Call, raw: bool, status: int) {
    && call.nested == [] && call.receipt.Some? && call.receipt.value.status == status && call.receipt.value.wellFormed
    && (call.receipt.value.raw || (!raw && call.receipt.value.audit))
  }

  /** A chart that goes out is recorded with its target and strategy. Answered with a status below 300 it counts as obtained
      and nothing is pending any more; the first failure of a session, other than a refusal for too many requests, leaves that
      chart pending for one repetition; every other answer poisons. */
  lemma ChartAnswered(s: State, symbol: Id, call: Call, kind: Kind, status: int)
    requires Good(s) && !s.poisoned && !s.finalized && !call.retries && !call.unapproved && AsksChart(call, symbol)
    requires OfKind(call.params, kind) && MayGo(s, TargetOf(call, kind)) && AnsweredWith(call, true, status) && 100 <= status <= 599
    ensures var target, (after, reply) := TargetOf(call, kind), Request(s, symbol, call);
            && after.sent == s.sent + [Sending(Identity(Get, Query2, Chart), Some(target), s.strategy, Some(status))]
            && (status < 300 ==> reply == Answered(status) && !after.poisoned && kind in after.chartSent && after.pending.None?)
            && (400 <= status && status != 429 && s.pending.None? && !s.fallbackUsed ==>
                  reply == Answered(status) && !after.poisoned && after.pending == Some(target)
                  && after.failedStrategy == Some(s.strategy) && after.strategy == s.strategy && !after.fallbackUsed)
            && (300 <= status < 400 || status == 429 || (400 <= status && (s.pending.Some? || s.fallbackUsed)) ==> after.poisoned)
  {
    hide Good;
    GoodIdle(s);
    KindIff(call.params, kind);
    ExchangeIs(s, symbol, call, Identity(Get, Query2, Chart), Some(TargetOf(call, kind)));
    hide Exchange, TargetOf, ChartKind, OfKind;
  }

  /** A history chart answered with a status below 300 completes the session. */
  lemma HistoryCompletes(s: State, symbol: Id, call: Call, status: int)
    requires Good(s) && !s.poisoned && !s.finalized && !call.retries && !call.unapproved && AsksChart(call, symbol)
    requires OfKind(call.params, History) && MayGo(s, TargetOf(call, History)) && AnsweredWith(call, true, status) && 100 <= status < 300
    ensures Complete(Request(s, symbol, call).0)
  {
    ChartAnswered(s, symbol, call, History, status);
    hide Request;
  }

  /** The basic crumb host and the cookie host select the basic strategy, the other crumb host and every consent page the
      other one, so a failed chart can be repeated after a crumb of the other strategy was fetched. */
  lemma StrategySelected(s: State, symbol: Id, call: Call, status: int)
    requires Good(s) && !s.poisoned && !s.finalized && !call.retries && !call.unapproved && AsksOther(call)
    requires AnsweredWith(call, false, status) && 100 <= status < 300
    ensures var (after, reply) := Request(s, symbol, call);
            && reply == Answered(status)
            && after == s.(strategy := if call.url.host in {Fc, Query1} then Basic else Csrf, sent := after.sent)
  {
    hide Good;
    GoodIdle(s);
    var identity := Classify(call.verb, call.url, symbol).value;
    ExchangeIs(s.(strategy := StrategyAfter(s.strategy, identity.endpoint)), symbol, call, identity, None);
    hide Exchange;
  }

  /** Any answer from 300 on poisons such a request's session, but for a missing cookie page. */
  lemma OtherAnswered(s: State, symbol: Id, call: Call, status: int)
    requires Good(s) && !s.poisoned && !s.finalized && !call.retries && !call.unapproved && AsksOther(call)
    requires AnsweredWith(call, false, status) && 100 <= status <= 599
    ensures Request(s, symbol, call).0.poisoned <==> 300 <= status && !(status == 404 && call.url.host == Fc)
  {
    hide Good;
    GoodIdle(s);
    var identity := Classify(call.verb, call.url, symbol).value;
    ExchangeIs(s.(strategy := StrategyAfter(s.strategy, identity.endpoint)), symbol, call, identity, None);
    hide Exchange;
  }

  /** A request during which the session was called back, or that brought no proper answer, leaves the session poisoned. */
  lemma ImproperPoisons(s: State, symbol: Id, call: Call)
    requires Good(s)
    requires call.nested != [] || call.receipt.None? || !call.receipt.value.wellFormed
             || !(100 <= call.receipt.value.status <= 599) || (!call.receipt.value.raw && !call.receipt.value.audit)
             || (AsksChart(call, symbol) && !call.receipt.value.raw)
    ensures Request(s, symbol, call).0.poisoned
  {
    GoodIdle(s);
    hide Good, Exchange, Classify, TargetOf, ChartKind, AsksChart, AsksOther, MayChart, Acceptable;
    ClassifyIff(call, symbol);
    var identity := Classify(call.verb, call.url, symbol);
    if identity.Some? && (identity.value.endpoint == Chart ==> call.bound) {
      ImproperExchange(s.(strategy := StrategyAfter(s.strategy, identity.value.endpoint)), symbol, call, identity.value, None);
      if ChartKind(call.params).Some? {
        ImproperExchange(s, symbol, call, identity.value, Some(TargetOf(call, ChartKind(call.params).value)));
      }
    }
  }

  lemma ImproperExchange(s: State, symbol: Id, call: Call, identity: Identity, chart: Option<Target>)
    requires call.nested != [] || call.receipt.None? || !call.receipt.value.wellFormed
             || !(100 <= call.receipt.value.status <= 599) || (!call.receipt.value.raw && !call.receipt.value.audit)
             || (identity.endpoint == Chart && !call.receipt.value.raw)
    ensures Exchange(s, symbol, call, identity, chart).0.poisoned
  {
    ExchangeIs(s, symbol, call, identity, chart);
  }

  /** A failed chart can be repeated exactly once: after a crumb of the other strategy the same chart goes out again. */
  lemma FallbackGoesOut(s: State, symbol: Id, chart: Call, crumb: Call, failed: int, fetched: int, kind: Kind)
    requires Good(s) && !s.poisoned && !s.finalized && !chart.retries && !chart.unapproved && AsksChart(chart, symbol)
    requires OfKind(chart.params, kind) && MayGo(s, TargetOf(chart, kind)) && s.pending.None? && !s.fallbackUsed
    requires AnsweredWith(chart, true, failed) && 400 <= failed <= 599 && failed != 429
    requires !crumb.retries && !crumb.unapproved && AsksOther(crumb) && AnsweredWith(crumb, false, fetched) && 100 <= fetched < 300
    requires crumb.url.host in {Fc, Query1} <==> s.strategy == Csrf
    ensures var first := Request(s, symbol, chart).0;
            var ready := Request(first, symbol, crumb).0;
            |Request(ready, symbol, chart).0.sent| == |ready.sent| + 1
  {
    RequestGood(s, symbol, chart);
    ChartAnswered(s, symbol, chart, kind, failed);
    var first := Request(s, symbol, chart).0;
    GoodFinished(s, symbol, chart);
    RequestGood(first, symbol, crumb);
    StrategySelected(first, symbol, crumb, fetched);
    SentIff(Request(first, symbol, crumb).0, symbol, chart);
    hide Request, Good, TargetOf;
  }

  lemma GoodFinished(s: State, symbol: Id, call: Call)
    requires Good(s) && !Request(s, symbol, call).0.poisoned
    ensures !Request(s, symbol, call).0.finalized
  {
    RequestGood(s, symbol, call);
    hide Request;
  }

  // ---------------------------------------------------------------- whole sessions

  datatype Event = Ask(call: Call) | Finish(success: bool, portAccepts: bool)

  function After(s: State, symbol: Id, e: Event): State {
    match e
    case Ask(call) => Request(s, symbol, call).0
    case Finish(success, portAccepts) => Finalize(s, success, portAccepts)
  }

  function Run(symbol: Id, events: seq<Event>): State {
    if events == [] then START else After(Run(symbol, events[..|events| - 1]), symbol, events[|events| - 1])
  }

  lemma {:induction false} RunGood(symbol: Id, events: seq<Event>)
    ensures Good(Run(symbol, events))
  {
    hide Good, Request, Finalize;
    if events == [] {
      StartGood();
    } else {
      var before := Run(symbol, events[..|events| - 1]);
      RunGood(symbol, events[..|events| - 1]);
      match events[|events| - 1]
      case Ask(call) => RequestGood(before, symbol, call);
      case Finish(success, portAccepts) => FinalizeGood(before, success, portAccepts);
    }
  }

  lemma AtMostTwoKinds(kinds: set<Kind>)
    ensures |kinds| <= 2
  {
    assert kinds <= {History, Timezone} by {
      forall kind | kind in kinds
        ensures kind in {History, Timezone}
      {
        match kind
        case History =>
        case Timezone =>
      }
    }
    SubsetSize(kinds, {History, Timezone});
  }

  /** Whatever is asked of a session, at most three charts are sent: one of each kind and one fallback. */
  lemma AtMostThreeCharts(symbol: Id, events: seq<Event>)
    ensures |Charts(Run(symbol, events).sent)| <= 3
  {
    RunGood(symbol, events);
    hide Run, Good;
    GoodCharts(Run(symbol, events));
  }

  /** A chart sent again for the same kind is exactly the failed target under the other strategy. */
  lemma FallbackIsExact(symbol: Id, events: seq<Event>, i: nat, j: nat)
    requires i < j < |Charts(Run(symbol, events).sent)|
    requires Charts(Run(symbol, events).sent)[i].chart.Some? && Charts(Run(symbol, events).sent)[j].chart.Some?
    requires Charts(Run(symbol, events).sent)[i].chart.value.kind == Charts(Run(symbol, events).sent)[j].chart.value.kind
    ensures Repeats(Charts(Run(symbol, events).sent)[i], Charts(Run(symbol, events).sent)[j])
  {
    RunGood(symbol, events);
    hide Run;
  }

  /** A session that calls itself complete has had some history chart answered with a status below 300. */
  lemma CompleteWasAnswered(symbol: Id, events: seq<Event>)
    requires Complete(Run(symbol, events))
    ensures Succeeded(Charts(Run(symbol, events).sent), History)
  {
    RunGood(symbol, events);
    hide Run;
  }

  /** Once poisoned or finalised a session stays so, and nothing is sent any more. */
  lemma {:induction false} NothingSentAfterwards(symbol: Id, events: seq<Event>, more: seq<Event>)
    requires Run(symbol, events).poisoned
    ensures Run(symbol, events + more).poisoned && Run(symbol, events + more).sent == Run(symbol, events).sent
    ensures Run(symbol, events).finalized ==> Run(symbol, events + more).finalized
  {
    if more == [] {
      assert events + more == events;
    } else {
      NothingSentAfterwards(symbol, events, more[..|more| - 1]);
      assert (events + more)[..|events + more| - 1] == events + more[..|more| - 1];
    }
  }

  // The event at `i` finishes the session.
  predicate Finalises(symbol: Id, events: seq<Event>, i: nat)
    requires i < |events|
  {
    events[i].Finish? && !Run(symbol, events[..i]).finalized && Run(symbol, events[..i + 1]).finalized
  }

  lemma RunNext(symbol: Id, events: seq<Event>, i: nat)
    requires i < |events|
    ensures Run(symbol, events[..i + 1]) == After(Run(symbol, events[..i]), symbol, events[i])
  {
    assert events[..i + 1][..i] == events[..i];
  }

  // From a finished session on.
  lemma FinishedStays(symbol: Id, events: seq<Event>, i: nat, n: nat)
    requires i <= n <= |events| && Run(symbol, events[..i]).finalized
    ensures Run(symbol, events[..n]).finalized && Run(symbol, events[..n]).sent == Run(symbol, events[..i]).sent
  {
    RunGood(symbol, events[..i]);
    NothingSentAfterwards(symbol, events[..i], events[i..n]);
    assert events[..i] + events[i..n] == events[..n];
    hide Run;
  }

  /** A session is finished at most once: of two events of a run, not both finish it. */
  lemma FinalisedOnce(symbol: Id, events: seq<Event>, i: nat, j: nat)
    requires i < j < |events| && Finalises(symbol, events, i)
    ensures !Finalises(symbol, events, j)
  {
    FinishedStays(symbol, events, i + 1, j);
    hide Run;
  }

  /** A session finished as a success has, then and ever after, a history chart answered with a status below 300. */
  lemma SuccessWasEarned(symbol: Id, events: seq<Event>, i: nat, n: nat)
    requires i < n <= |events| && Finalises(symbol, events, i) && events[i].success
    ensures Succeeded(Charts(Run(symbol, events[..n]).sent), History)
  {
    RunNext(symbol, events, i);
    FinishedStays(symbol, events, i + 1, n);
    hide Run;
    CompleteWasAnswered(symbol, events[..i]);
  }

  // ---------------------------------------------------------------- the session itself

  class CoordinatedSession {
    const symbol: Id
    var active: bool
    var poisoned: bool
    var finalized: bool
    var pending: Option<Target>
    var fallbackUsed: bool
    var strategy: Strategy
    var failedStrategy: Option<Strategy>
    var chartSent: set<Kind>
    ghost var sent: seq<Sending>

    ghost function Now(): State
      reads this
    {
      State(active, poisoned, finalized, pending, fallbackUsed, strategy, failedStrategy, chartSent, sent)
    }

    constructor (expected: Id)
      ensures Now() == START && symbol == expected
    {
      symbol := expected;
      active, poisoned, finalized, pending, fallbackUsed := false, false, false, None, false;
      strategy, failedStrategy, chartSent, sent := Basic, None, {}, [];
    }

    // May this chart be sent now? A fallback is used up by being let through.
    method CheckTransition(target: Target) returns (ok: bool)
      modifies `fallbackUsed
      ensures ok == MayChart(old(Now()), target)
      ensures Now() == old(Now()).(fallbackUsed := if ok && pending.Some? then true else old(fallbackUsed))
    {
      if pending.None? {
        return target.kind !in chartSent;
      }
      if fallbackUsed || target != pending.value || Some(strategy) == failedStrategy {
        return false;
      }
      fallbackUsed := true;
      return true;
    }

    /** Classify, then let the exchange port send at most once. */
    method Ask(call: Call) returns (reply: Reply)
      modifies this
      ensures (Now(), reply) == Request(old(Now()), symbol, call)
      ensures old(Good(Now())) ==> Good(Now()) && |Charts(sent)| <= 3
      decreases call, 2
    {
      RequestKeeps(Now(), symbol, call);
      hide Exchange, Concluded, CalledBack, MayChart, TargetOf, Classify, Good, Charts;
      if poisoned || finalized || active || call.retries || call.unapproved {
        poisoned := true;
        return Raised;
      }
      var identity := Classify(call.verb, call.url, symbol);
      if identity.None? {
        poisoned := true;
        return Raised;
      }
      if identity.value.endpoint != Chart {
        strategy := StrategyAfter(strategy, identity.value.endpoint);
        reply := Send(call, identity.value, None, fallbackUsed);
      } else {
        var kind := ChartKind(call.params);
        if !call.bound || kind.None? {
          poisoned := true;
          return Raised;
        }
        ghost var before := Now();
        var ok := CheckTransition(TargetOf(call, kind.value));
        if !ok {
          poisoned := true;
          return Raised;
        }
        assert Now() == before.(fallbackUsed := before.fallbackUsed || before.pending.Some?);
        reply := Send(call, identity.value, Some(TargetOf(call, kind.value)), before.fallbackUsed);
      }
    }

    // One exchange, from its dispatch to the judgement of its receipt.
    method Send(call: Call, identity: Identity, chart: Option<Target>, ghost usedBefore: bool) returns (reply: Reply)
      requires fallbackUsed == (usedBefore || (chart.Some? && pending.Some?))
      modifies this
      ensures (Now(), reply) == Exchange(old(Now()).(fallbackUsed := usedBefore), symbol, call, identity, chart)
      decreases call, 1
    {
      hide Request, Concluded;
      ghost var begun := old(Now()).(fallbackUsed := usedBefore);
      ghost var at := |sent|;
      active := true;
      sent := sent + [Sending(identity, chart, strategy, None)];
      assert Now() == Dispatched(begun, identity, chart);
      for i := 0 to |call.nested|
        invariant Now() == CalledBack(Dispatched(begun, identity, chart), symbol, call, i)
      {
        var inner := Ask(call.nested[i]);
      }
      reply := Conclude(identity, chart, call.receipt, at);
    }

    method Conclude(identity: Identity, chart: Option<Target>, receipt: Option<Receipt>, ghost at: nat) returns (reply: Reply)
      modifies this
      ensures (Now(), reply) == Concluded(old(Now()), identity, chart, receipt, at)
    {
      active := false;
      if receipt.None? || !Acceptable(receipt.value, identity) {
        poisoned := true;
        return Raised;
      }
      var status := receipt.value.status;
      sent := if at < |sent| then sent[at := sent[at].(status := Some(status))] else sent;
      if status == 429 || 300 <= status < 400 {
        poisoned := true;
        return Raised;
      }
      if status >= 400 && !(identity.endpoint == CookieBasic && status == 404) {
        if chart.Some? && !fallbackUsed && pending.None? {
          pending, failedStrategy := chart, Some(strategy);
        } else {
          poisoned := true;
        }
      } else if chart.Some? {
        pending := None;
      }
      if chart.Some? {
        chartSent := chartSent + {chart.value.kind};
      }
      return Answered(status);
    }

    /** Finish the bound request exactly once. */
    method Finish(success: bool, portAccepts: bool) returns (done: bool)
      modifies this
      ensures Now() == Finalize(old(Now()), success, portAccepts)
      ensures done <==> finalized && !old(finalized)
      ensures old(Good(Now())) ==> Good(Now()) && |Charts(sent)| <= 3
    {
      FinalizeKeeps(Now(), success, portAccepts);
      hide Good, Charts;
      if finalized || !portAccepts || (success && !(History in chartSent && pending.None? && !poisoned)) {
        return false;
      }
      finalized, poisoned := true, true;
      return true;
    }
  }

  /** A new session goes through exactly the states of the run of what is asked of it. */
  method AskAll(symbol: Id, events: seq<Event>) returns (session: CoordinatedSession)
    ensures fresh(session) && session.Now() == Run(symbol, events) && Good(session.Now())
  {
    session := new CoordinatedSession(symbol);
    hide Request, Finalize, Good;
    StartGood();
    for i := 0 to |events|
      invariant fresh(session) && session.symbol == symbol && session.Now() == Run(symbol, events[..i]) && Good(session.Now())
    {
      RunNext(symbol, events, i);
      match events[i]
      case Ask(call) => var reply := session.Ask(call);
      case Finish(success, portAccepts) => var done := session.Finish(success, portAccepts);
    }
    assert events[..|events|] == events;
  }
}
