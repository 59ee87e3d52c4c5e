/** Merging the accepted values of several reports, and the coverage of the required periods that results. */
module Coverage {
  import opened Basics
  import opened Decimals

  datatype Metric = Revenue | OperatingProfit | ParentProfit | Assets | Equity | OperatingCashFlow
  const METRICS: seq<Metric> := [Revenue, OperatingProfit, ParentProfit, Assets, Equity, OperatingCashFlow]

  // A stored value text as a number: absent, unreadable, infinite or not a number, or finite.
  datatype Amount = Absent | Unreadable | NonFinite | Finite(number: Decimal)

  datatype Value = Value(metric: Metric, accepted: bool, amount: Amount, currency: Id, scope: Id)
  datatype Record = Record(period: Id, values: seq<Value>)
  type Report = seq<Record>

  datatype Level = Complete | Partial | Missing
  datatype Line = Line(period: Id, level: Level, count: nat, missing: seq<Metric>)

  datatype Error = DuplicatePeriod | OutsideWindow | MissingValue | UnreadableValue | NonFiniteValue | ConflictingValue
  datatype Merged = Ok(lines: seq<Line>) | Err(error: Error)

  datatype Key = Key(period: Id, metric: Metric)
  datatype Entry = Entry(period: Id, value: Value)

  function KeyOf(e: Entry): Key {
    Key(e.period, e.value.metric)
  }

  // Two finite values agree: numerically equal, in the same currency and scope.
  predicate Agree(x: Value, y: Value) {
    && x.amount.Finite? && y.amount.Finite? && Same(x.amount.number, y.amount.number)
    && x.currency == y.currency && x.scope == y.scope
  }

  lemma AgreeTransitive(x: Value, y: Value, z: Value)
    ensures x.amount.Finite? ==> Agree(x, x)
    ensures Agree(x, y) ==> Agree(y, x)
    ensures Agree(x, y) && Agree(y, z) ==> Agree(x, z)
  {
    hide Same;
    if x.amount.Finite? {
      SameIffSameText(x.amount.number, x.amount.number);
    }
    if Agree(x, y) {
      SameIffSameText(x.amount.number, y.amount.number);
      SameIffSameText(y.amount.number, x.amount.number);
      if Agree(y, z) {
        SameIffSameText(y.amount.number, z.amount.number);
        SameIffSameText(x.amount.number, z.amount.number);
      }
    }
  }

  // ---------------------------------------------------------------- what the reports say, without their order

  predicate Distinct(report: Report) {
    forall i, j :: 0 <= i < j < |report| ==> report[i].period != report[j].period
  }

  // Some report has this entry.
  ghost predicate Says(reports: seq<Report>, e: Entry) {
    exists report, record :: report in reports && record in report && RecordSays(record, e)
  }

  ghost predicate Accepts(reports: seq<Report>, e: Entry) {
    Says(reports, e) && e.value.accepted
  }

  /** The input is well formed: distinct periods in each report, none outside the window, and a finite number for
      every accepted value. */
  ghost predicate WellFormed(required: seq<Id>, reports: seq<Report>) {
    && (forall report :: report in reports ==> Distinct(report))
    && (forall report, record :: report in reports && record in report ==> record.period in required)
    && (forall e :: Accepts(reports, e) ==> e.value.amount.Finite?)
  }

  /** Two accepted values for one period and metric differ. */
  ghost predicate Conflict(reports: seq<Report>) {
    exists e, f :: Accepts(reports, e) && Accepts(reports, f) && KeyOf(e) == KeyOf(f) && !Agree(e.value, f.value)
  }

  ghost predicate Covered(reports: seq<Report>, k: Key) {
    exists e :: Accepts(reports, e) && KeyOf(e) == k
  }

  function Lacking(period: Id, keys: set<Key>, metrics: seq<Metric>): seq<Metric> {
    if metrics == [] then []
    else Lacking(period, keys, metrics[..|metrics| - 1])
         + if Key(period, metrics[|metrics| - 1]) in keys then [] else [metrics[|metrics| - 1]]
  }

  lemma {:induction false} LackingShort(period: Id, keys: set<Key>, metrics: seq<Metric>)
    ensures |Lacking(period, keys, metrics)| <= |metrics|
    ensures forall m :: m in Lacking(period, keys, metrics) <==> m in metrics && Key(period, m) !in keys
  {
    if metrics != [] {
      LackingShort(period, keys, metrics[..|metrics| - 1]);
      assert metrics == metrics[..|metrics| - 1] + [metrics[|metrics| - 1]];
    }
  }

  function LineFor(period: Id, keys: set<Key>): Line {
    var missing := Lacking(period, keys, METRICS);
    LackingShort(period, keys, METRICS);
    var count := |METRICS| - |missing|;
    Line(period, if missing == [] then Complete else if count > 0 then Partial else Missing, count, missing)
  }

  function LinesFor(required: seq<Id>, keys: set<Key>): seq<Line> {
    if required == [] then [] else LinesFor(required[..|required| - 1], keys) + [LineFor(required[|required| - 1], keys)]
  }

  // ---------------------------------------------------------------- merging

  // `accepted` holds, for every key accepted so far, a value all accepted ones agree with.
  ghost predicate Collected(accepted: map<Key, Value>, said: set<Entry>) {
    && (forall e :: e in said && e.value.accepted ==>
          e.value.amount.Finite? && KeyOf(e) in accepted && Agree(accepted[KeyOf(e)], e.value))
    && (forall k :: k in accepted ==> exists e :: e in said && e.value.accepted && KeyOf(e) == k)
  }

  // The entries of the first reports, records and values.
  function ValueEntries(period: Id, values: seq<Value>): set<Entry> {
    set v | v in values :: Entry(period, v)
  }

  function RecordEntries(records: seq<Record>): set<Entry> {
    if records == [] then {}
    else RecordEntries(records[..|records| - 1]) + ValueEntries(records[|records| - 1].period, records[|records| - 1].values)
  }

  function ReportEntries(reports: seq<Report>): set<Entry> {
    if reports == [] then {} else ReportEntries(reports[..|reports| - 1]) + RecordEntries(reports[|reports| - 1])
  }

  ghost predicate RecordSays(record: Record, e: Entry) {
    record.period == e.period && e.value in record.values
  }

  lemma {:induction false} RecordsSay(records: seq<Record>, e: Entry)
    ensures e in RecordEntries(records) <==> exists record :: record in records && RecordSays(record, e)
  {
    if records != [] {
      var front, last := records[..|records| - 1], records[|records| - 1];
      assert records == front + [last];
      RecordsSay(front, e);
      assert e in ValueEntries(last.period, last.values) <==> RecordSays(last, e);
      hide RecordSays;
      assert forall record :: record in records <==> record in front || record == last;
    }
  }

  /** The entries collected by the loops are exactly what the reports say. */
  lemma {:induction false} ReportsSay(reports: seq<Report>, e: Entry)
    ensures e in ReportEntries(reports) <==> Says(reports, e)
  {
    if reports != [] {
      var front, last := reports[..|reports| - 1], reports[|reports| - 1];
      assert reports == front + [last];
      ReportsSay(front, e);
      RecordsSay(last, e);
      if Says(reports, e) && !Says(front, e) {
        var report, record :| report in reports && record in report && RecordSays(record, e);
        assert report == last;
      }
      if Says(front, e) {
        var report, record :| report in front && record in report && RecordSays(record, e);
        assert report in reports;
      }
    }
  }

  lemma CollectOne(accepted: map<Key, Value>, said: set<Entry>, e: Entry)
    requires Collected(accepted, said) && e.value.accepted && e.value.amount.Finite?
    requires KeyOf(e) in accepted ==> Agree(accepted[KeyOf(e)], e.value)
    ensures Collected(accepted[KeyOf(e) := e.value], said + {e})
  {
    var after, all := accepted[KeyOf(e) := e.value], said + {e};
    forall f | f in all && f.value.accepted
      ensures f.value.amount.Finite? && KeyOf(f) in after && Agree(after[KeyOf(f)], f.value)
    {
      AgreeTransitive(e.value, e.value, e.value);
      if f in said && KeyOf(f) == KeyOf(e) {
        AgreeTransitive(accepted[KeyOf(e)], e.value, e.value);
        AgreeTransitive(e.value, accepted[KeyOf(e)], f.value);
      }
    }
    forall k | k in after
      ensures exists f :: f in all && f.value.accepted && KeyOf(f) == k
    {
      if k == KeyOf(e) {
        assert e in all;
      } else {
        var f :| f in said && f.value.accepted && KeyOf(f) == k;
        assert f in all;
      }
    }
  }

  lemma CollectIgnored(accepted: map<Key, Value>, said: set<Entry>, e: Entry)
    requires Collected(accepted, said) && !e.value.accepted
    ensures Collected(accepted, said + {e})
  {
    forall k | k in accepted
      ensures exists f :: f in said + {e} && f.value.accepted && KeyOf(f) == k
    {
      var f :| f in said && f.value.accepted && KeyOf(f) == k;
      assert f in said + {e};
    }
  }

  // A new value that disagrees with the collected one disagrees with a value said before.
  lemma ConflictFound(accepted: map<Key, Value>, said: set<Entry>, e: Entry) returns (f: Entry)
    requires Collected(accepted, said) && e.value.accepted && e.value.amount.Finite?
    requires KeyOf(e) in accepted && !Agree(accepted[KeyOf(e)], e.value)
    ensures f in said && f.value.accepted && KeyOf(f) == KeyOf(e) && !Agree(f.value, e.value)
  {
    f :| f in said && f.value.accepted && KeyOf(f) == KeyOf(e);
    AgreeTransitive(accepted[KeyOf(e)], f.value, e.value);
  }

  // What the error of a failed merge says of the reports.
  ghost predicate Blames(error: Error, required: seq<Id>, reports: seq<Report>) {
    match error
    case DuplicatePeriod => exists report :: report in reports && !Distinct(report)
    case OutsideWindow => exists report, record :: report in reports && record in report && record.period !in required
    case MissingValue => exists e :: Accepts(reports, e) && e.value.amount == Absent
    case UnreadableValue => exists e :: Accepts(reports, e) && e.value.amount == Unreadable
    case NonFiniteValue => exists e :: Accepts(reports, e) && e.value.amount == NonFinite
    case ConflictingValue => Conflict(reports)
  }

  /** Merge the accepted values of all reports, rejecting conflicts. */
  method MergeCoverage(required: seq<Id>, reports: seq<Report>) returns (merged: Merged)
    ensures merged.Ok? <==> WellFormed(required, reports) && !Conflict(reports)
    ensures merged.Err? ==> Blames(merged.error, required, reports)
    ensures merged.Ok? ==> exists keys: set<Key> :: (forall k :: k in keys <==> Covered(reports, k)) && merged.lines == LinesFor(required, keys)
  {
    hide Agree, Covered, WellFormed, Conflict, Blames, Collected, Says, Accepts;
    var accepted: map<Key, Value> := map[];
    ghost var said: set<Entry> := {};
    CollectedNothing();
    for i := 0 to |reports|
      invariant said == ReportEntries(reports[..i]) && Collected(accepted, said)
      invariant forall report :: report in reports[..i] ==> Distinct(report)
      invariant forall report, record :: report in reports[..i] && record in report ==> record.period in required
    {
      assert reports[..i + 1] == reports[..i] + [reports[i]];
      assert reports[..i + 1][..i] == reports[..i];
      var error: Option<Error>;
      if !DistinctPeriods(reports[i]) {
        DuplicateBlamed(required, reports, reports[i]);
        return Err(DuplicatePeriod);
      }
      forall e | e in said ensures Says(reports, e) {
        PrefixSays(reports, i, e);
      }
      error, accepted := MergeReport(required, reports, reports[i], accepted, said);
      if error.Some? {
        BlamedFails(error.value, required, reports);
        return Err(error.value);
      }
      said := said + RecordEntries(reports[i]);
    }
    assert reports[..|reports|] == reports;
    AllCollected(required, reports, accepted);
    var lines := Tabulate(required, accepted);
    assert accepted.Keys == accepted.Keys && lines == LinesFor(required, accepted.Keys);
    return Ok(lines);
  }

  lemma PrefixSays(reports: seq<Report>, i: nat, e: Entry)
    requires i <= |reports| && e in ReportEntries(reports[..i])
    ensures Says(reports, e)
  {
    ReportsSay(reports[..i], e);
    var report, record :| report in reports[..i] && record in report && RecordSays(record, e);
    assert report in reports;
  }

  predicate DistinctPeriods(report: Report)
    ensures DistinctPeriods(report) <==> Distinct(report)
  {
    Distinct(report)
  }

  lemma CollectedNothing()
    ensures Collected(map[], {})
  {
  }

  lemma DuplicateBlamed(required: seq<Id>, reports: seq<Report>, report: Report)
    requires report in reports && !Distinct(report)
    ensures Blames(DuplicatePeriod, required, reports) && !WellFormed(required, reports)
  {
  }

  /** Whatever a failed merge blames really makes the input unacceptable. */
  lemma BlamedFails(error: Error, required: seq<Id>, reports: seq<Report>)
    requires Blames(error, required, reports)
    ensures !(WellFormed(required, reports) && !Conflict(reports))
  {
  }

  lemma AllCollected(required: seq<Id>, reports: seq<Report>, accepted: map<Key, Value>)
    requires Collected(accepted, ReportEntries(reports))
    requires forall report :: report in reports ==> Distinct(report)
    requires forall report, record :: report in reports && record in report ==> record.period in required
    ensures WellFormed(required, reports) && !Conflict(reports)
    ensures forall k :: k in accepted.Keys <==> Covered(reports, k)
  {
    hide Agree, Says;
    forall e {
      ReportsSay(reports, e);
    }
    forall e, f | Accepts(reports, e) && Accepts(reports, f) && KeyOf(e) == KeyOf(f)
      ensures Agree(e.value, f.value)
    {
      AgreeTransitive(accepted[KeyOf(e)], e.value, e.value);
      AgreeTransitive(e.value, accepted[KeyOf(e)], f.value);
    }
  }

  // The records of one report.
  method MergeReport(required: seq<Id>, ghost reports: seq<Report>, report: Report, before: map<Key, Value>, ghost said: set<Entry>)
    returns (error: Option<Error>, accepted: map<Key, Value>)
    requires report in reports && Collected(before, said) && forall e :: e in said ==> Says(reports, e)
    ensures error.Some? ==> Blames(error.value, required, reports)
    ensures error.None? ==> Collected(accepted, said + RecordEntries(report)) && forall record :: record in report ==> record.period in required
  {
    hide Agree, Blames, Collected, Says;
    accepted := before;
    ghost var so := said;
    for j := 0 to |report|
      invariant so == said + RecordEntries(report[..j]) && Collected(accepted, so)
      invariant forall record :: record in report[..j] ==> record.period in required
    {
      assert report[..j + 1] == report[..j] + [report[j]];
      assert report[..j + 1][..j] == report[..j];
      if report[j].period !in required {
        OutsideBlamed(required, reports, report, report[j]);
        return Some(OutsideWindow), accepted;
      }
      forall e | e in so ensures Says(reports, e) {
        SaidSoFar(reports, report, j, said, e);
      }
      error, accepted := MergeRecord(reports, report, report[j], accepted, so);
      if error.Some? {
        AcceptedBlamed(error.value, required, reports);
        return;
      }
      so := so + ValueEntries(report[j].period, report[j].values);
    }
    assert report[..|report|] == report;
    return None, accepted;
  }

  lemma OutsideBlamed(required: seq<Id>, reports: seq<Report>, report: Report, record: Record)
    requires report in reports && record in report && record.period !in required
    ensures Blames(OutsideWindow, required, reports)
  {
  }

  lemma SaidSoFar(reports: seq<Report>, report: Report, j: nat, said: set<Entry>, e: Entry)
    requires report in reports && j <= |report| && e in said + RecordEntries(report[..j])
    requires forall f :: f in said ==> Says(reports, f)
    ensures Says(reports, e)
  {
    RecordsSay(report[..j], e);
    if e !in said {
      var record :| record in report[..j] && RecordSays(record, e);
      assert record in report;
    }
  }

  // What a record can be blamed for does not depend on the window.
  ghost predicate BlamesValue(error: Error, reports: seq<Report>) {
    error != DuplicatePeriod && error != OutsideWindow && Blames(error, [], reports)
  }

  lemma AcceptedBlamed(error: Error, required: seq<Id>, reports: seq<Report>)
    requires BlamesValue(error, reports)
    ensures Blames(error, required, reports)
  {
  }

  // The values of one record.
  method MergeRecord(ghost reports: seq<Report>, ghost report: Report, record: Record, before: map<Key, Value>, ghost said: set<Entry>)
    returns (error: Option<Error>, accepted: map<Key, Value>)
    requires report in reports && record in report && Collected(before, said) && forall e :: e in said ==> Says(reports, e)
    ensures error.Some? ==> BlamesValue(error.value, reports)
    ensures error.None? ==> Collected(accepted, said + ValueEntries(record.period, record.values))
  {
    hide Agree, Blames, Collected, Says, Accepts, BlamesValue;
    accepted := before;
    assert said + ValueEntries(record.period, []) == said;
    for k := 0 to |record.values|
      invariant Collected(accepted, said + ValueEntries(record.period, record.values[..k]))
    {
      var value := record.values[k];
      ghost var so, e := said + ValueEntries(record.period, record.values[..k]), Entry(record.period, value);
      assert said + ValueEntries(record.period, record.values[..k + 1]) == so + {e};
      OneSaid(reports, report, record, e);
      if !value.accepted {
        CollectIgnored(accepted, so, e);
        continue;
      }
      if !value.amount.Finite? {
        BadValueBlamed(reports, e);
        return Some(if value.amount == Absent then MissingValue else if value.amount == Unreadable then UnreadableValue else NonFiniteValue),
               accepted;
      }
      var key := Key(record.period, value.metric);
      if key in accepted && !Agree(accepted[key], value) {
        ghost var f := ConflictFound(accepted, so, e);
        RecordSaid(reports, report, record, k, said, f);
        ConflictBlamed(reports, f, e);
        return Some(ConflictingValue), accepted;
      }
      CollectOne(accepted, so, e);
      accepted := accepted[key := value];
    }
    assert record.values[..|record.values|] == record.values;
    return None, accepted;
  }

  lemma OneSaid(reports: seq<Report>, report: Report, record: Record, e: Entry)
    requires report in reports && record in report && RecordSays(record, e)
    ensures Says(reports, e) && (e.value.accepted ==> Accepts(reports, e))
  {
  }

  lemma RecordSaid(reports: seq<Report>, report: Report, record: Record, k: nat, said: set<Entry>, f: Entry)
    requires report in reports && record in report && k <= |record.values|
    requires f in said + ValueEntries(record.period, record.values[..k]) && forall e :: e in said ==> Says(reports, e)
    ensures Says(reports, f) && (f.value.accepted ==> Accepts(reports, f))
  {
    if f !in said {
      OneSaid(reports, report, record, f);
    }
  }

  lemma BadValueBlamed(reports: seq<Report>, e: Entry)
    requires Accepts(reports, e) && !e.value.amount.Finite?
    ensures BlamesValue(if e.value.amount == Absent then MissingValue
                        else if e.value.amount == Unreadable then UnreadableValue else NonFiniteValue, reports)
  {
  }

  lemma ConflictBlamed(reports: seq<Report>, e: Entry, f: Entry)
    requires Accepts(reports, e) && Accepts(reports, f) && KeyOf(e) == KeyOf(f) && !Agree(e.value, f.value)
    ensures BlamesValue(ConflictingValue, reports)
  {
  }

  // The coverage of every required period, in order.
  method Tabulate(required: seq<Id>, accepted: map<Key, Value>) returns (lines: seq<Line>)
    ensures lines == LinesFor(required, accepted.Keys)
  {
    lines := [];
    for i := 0 to |required|
      invariant lines == LinesFor(required[..i], accepted.Keys)
    {
      assert required[..i + 1][..i] == required[..i];
      lines := lines + [LineFor(required[i], accepted.Keys)];
    }
    assert required[..|required|] == required;
  }

  // ---------------------------------------------------------------- the order does not matter

  type RecordBag = (Id, multiset<Value>)

  function BagOf(record: Record): RecordBag {
    (record.period, multiset(record.values))
  }

  // A report, and all reports, up to the order of values, records and reports.
  function ReportBag(report: Report): multiset<RecordBag> {
    if report == [] then multiset{} else ReportBag(report[..|report| - 1]) + multiset{BagOf(report[|report| - 1])}
  }

  function ReportsBag(reports: seq<Report>): multiset<multiset<RecordBag>> {
    if reports == [] then multiset{} else ReportsBag(reports[..|reports| - 1]) + multiset{ReportBag(reports[|reports| - 1])}
  }

  lemma {:induction false} InReportBag(report: Report, x: RecordBag)
    ensures x in ReportBag(report) <==> exists record :: record in report && BagOf(record) == x
  {
    if report != [] {
      var front, last := report[..|report| - 1], report[|report| - 1];
      assert report == front + [last];
      InReportBag(front, x);
      assert forall record :: record in report <==> record in front || record == last;
    }
  }

  lemma {:induction false} InReportsBag(reports: seq<Report>, x: multiset<RecordBag>)
    ensures x in ReportsBag(reports) <==> exists report :: report in reports && ReportBag(report) == x
  {
    if reports != [] {
      var front, last := reports[..|reports| - 1], reports[|reports| - 1];
      assert reports == front + [last];
      InReportsBag(front, x);
      assert forall report :: report in reports <==> report in front || report == last;
      hide ReportBag;
      if x in ReportsBag(front) {
        var report :| report in front && ReportBag(report) == x;
        assert report in reports;
      } else if x == ReportBag(last) {
        assert last in reports;
      }
    }
  }

  predicate BagDistinct(bag: multiset<RecordBag>) {
    && (forall x :: x in bag ==> bag[x] == 1)
    && (forall x, y | x in bag && y in bag :: x.0 == y.0 ==> x == y)
  }

  lemma {:induction false} DistinctBag(report: Report)
    ensures Distinct(report) <==> BagDistinct(ReportBag(report))
  {
    if report != [] {
      var front, last := report[..|report| - 1], report[|report| - 1];
      var bag, x := ReportBag(front), BagOf(last);
      DistinctBag(front);
      assert Distinct(report) <==> Distinct(front) && forall i :: 0 <= i < |front| ==> front[i].period != last.period;
      if Distinct(report) {
        forall y | y in bag
          ensures y.0 != x.0
        {
          InReportBag(front, y);
          var record :| record in front && BagOf(record) == y;
        }
        BagAddDistinct(bag, x);
      } else if Distinct(front) {
        var i :| 0 <= i < |front| && front[i].period == last.period;
        InReportBag(front, BagOf(front[i]));
        assert front[i] in front;
        BagClash(bag, x, BagOf(front[i]));
      } else {
        BagSmaller(bag, x);
      }
    }
  }

  lemma BagAddDistinct(bag: multiset<RecordBag>, x: RecordBag)
    requires BagDistinct(bag) && forall y :: y in bag ==> y.0 != x.0
    ensures BagDistinct(bag + multiset{x})
  {
    assert x !in bag;
    forall y | y in bag + multiset{x}
      ensures (bag + multiset{x})[y] == 1
    {
      if y != x {
        assert y in bag;
      }
    }
  }

  lemma BagClash(bag: multiset<RecordBag>, x: RecordBag, y: RecordBag)
    requires y in bag && y.0 == x.0
    ensures !BagDistinct(bag + multiset{x})
  {
    var all := bag + multiset{x};
    assert x in all && y in all;
    if x == y {
      assert all[x] >= 2;
    }
  }

  lemma BagSmaller(bag: multiset<RecordBag>, x: RecordBag)
    ensures BagDistinct(bag + multiset{x}) ==> BagDistinct(bag)
  {
    var all := bag + multiset{x};
    if BagDistinct(all) {
      forall y | y in bag
        ensures bag[y] == 1
      {
        assert y in all && all[y] >= bag[y];
      }
      forall y, z | y in bag && z in bag && y.0 == z.0
        ensures y == z
      {
        assert y in all && z in all;
      }
    }
  }

  ghost predicate BagSays(bag: multiset<multiset<RecordBag>>, e: Entry) {
    exists report, record :: report in bag && record in report && record.0 == e.period && e.value in record.1
  }

  lemma SaysBag(reports: seq<Report>, e: Entry)
    ensures Says(reports, e) <==> BagSays(ReportsBag(reports), e)
  {
    if Says(reports, e) {
      var report, record :| report in reports && record in report && RecordSays(record, e);
      InReportsBag(reports, ReportBag(report));
      InReportBag(report, BagOf(record));
      assert e.value in BagOf(record).1;
    }
    if BagSays(ReportsBag(reports), e) {
      var rb, x :| rb in ReportsBag(reports) && x in rb && x.0 == e.period && e.value in x.1;
      InReportsBag(reports, rb);
      var report :| report in reports && ReportBag(report) == rb;
      InReportBag(report, x);
      var record :| record in report && BagOf(record) == x;
      assert RecordSays(record, e);
    }
  }

  lemma SameSays(a: seq<Report>, b: seq<Report>)
    requires ReportsBag(a) == ReportsBag(b)
    ensures forall e :: Accepts(a, e) <==> Accepts(b, e)
  {
    hide Says, BagSays, ReportsBag;
    forall e
      ensures Accepts(a, e) <==> Accepts(b, e)
    {
      SaysBag(a, e);
      SaysBag(b, e);
    }
  }

  lemma HalfWellFormed(required: seq<Id>, a: seq<Report>, b: seq<Report>)
    requires ReportsBag(a) == ReportsBag(b) && WellFormed(required, a)
    ensures WellFormed(required, b)
  {
    SameSays(a, b);
    hide Accepts;
    forall report | report in b
      ensures Distinct(report) && forall record :: record in report ==> record.period in required
    {
      InReportsBag(b, ReportBag(report));
      InReportsBag(a, ReportBag(report));
      var twin :| twin in a && ReportBag(twin) == ReportBag(report);
      DistinctBag(report);
      DistinctBag(twin);
      forall record | record in report
        ensures record.period in required
      {
        InReportBag(report, BagOf(record));
        InReportBag(twin, BagOf(record));
        var other :| other in twin && BagOf(other) == BagOf(record);
      }
    }
  }

  /** Neither whether the merge succeeds nor its result depends on the order of reports, records or values. */
  lemma OrderIndependent(required: seq<Id>, a: seq<Report>, b: seq<Report>)
    requires ReportsBag(a) == ReportsBag(b)
    ensures WellFormed(required, a) <==> WellFormed(required, b)
    ensures Conflict(a) <==> Conflict(b)
    ensures forall k :: Covered(a, k) <==> Covered(b, k)
  {
    SameSays(a, b);
    hide Accepts, Agree, WellFormed, ReportsBag;
    if WellFormed(required, a) {
      HalfWellFormed(required, a, b);
    }
    if WellFormed(required, b) {
      HalfWellFormed(required, b, a);
    }
  }

  /** Two merges of the same reports in any order end alike, with the same lines. */
  lemma SameLines(required: seq<Id>, a: seq<Report>, b: seq<Report>, keys: set<Key>, keys': set<Key>)
    requires ReportsBag(a) == ReportsBag(b)
    requires (forall k :: k in keys <==> Covered(a, k)) && (forall k :: k in keys' <==> Covered(b, k))
    ensures LinesFor(required, keys) == LinesFor(required, keys')
  {
    hide Covered;
    OrderIndependent(required, a, b);
    assert keys == keys';
  }

  // ---------------------------------------------------------------- more reports

  lemma MoreCovered(reports: seq<Report>, more: Report, k: Key)
    requires Covered(reports, k)
    ensures Covered(reports + [more], k)
  {
    var e :| Accepts(reports, e) && KeyOf(e) == k;
    var report, record :| report in reports && record in report && RecordSays(record, e);
    assert report in reports + [more];
    assert Accepts(reports + [more], e);
  }

  lemma {:induction false} LackingLess(period: Id, keys: set<Key>, more: set<Key>, metrics: seq<Metric>)
    requires keys <= more
    ensures |Lacking(period, more, metrics)| <= |Lacking(period, keys, metrics)|
  {
    if metrics != [] {
      LackingLess(period, keys, more, metrics[..|metrics| - 1]);
    }
  }

  lemma {:induction false} LinesAt(required: seq<Id>, keys: set<Key>)
    ensures |LinesFor(required, keys)| == |required|
    ensures forall i :: 0 <= i < |required| ==> LinesFor(required, keys)[i] == LineFor(required[i], keys)
  {
    if required != [] {
      LinesAt(required[..|required| - 1], keys);
    }
  }

  /** Adding a report never lowers the count of any period. */
  lemma CountsOnlyGrow(required: seq<Id>, reports: seq<Report>, more: Report, keys: set<Key>, keys': set<Key>, i: nat)
    requires (forall k :: k in keys <==> Covered(reports, k)) && (forall k :: k in keys' <==> Covered(reports + [more], k))
    requires i < |required|
    ensures |LinesFor(required, keys)| == |LinesFor(required, keys')| == |required|
    ensures LinesFor(required, keys)[i].period == LinesFor(required, keys')[i].period == required[i]
    ensures LinesFor(required, keys)[i].count <= LinesFor(required, keys')[i].count
  {
    forall k | k in keys
      ensures k in keys'
    {
      MoreCovered(reports, more, k);
    }
    hide Covered;
    LinesAt(required, keys);
    LinesAt(required, keys');
    LackingLess(required[i], keys, keys', METRICS);
  }

  // ---------------------------------------------------------------- the coverage of a single report

  function AcceptedMetrics(values: seq<Value>): set<Metric> {
    set v | v in values && v.accepted :: v.metric
  }

  function KeysOf(records: seq<Record>): set<Key> {
    set e | e in RecordEntries(records) && e.value.accepted :: KeyOf(e)
  }

  lemma KeysFrom(records: seq<Record>, k: Key)
    ensures k in KeysOf(records) <==> exists record :: record in records && record.period == k.period && k.metric in AcceptedMetrics(record.values)
  {
    if k in KeysOf(records) {
      var e :| e in RecordEntries(records) && e.value.accepted && KeyOf(e) == k;
      RecordsSay(records, e);
      var record :| record in records && RecordSays(record, e);
      assert k.metric in AcceptedMetrics(record.values);
    }
    if exists record :: record in records && record.period == k.period && k.metric in AcceptedMetrics(record.values) {
      var record :| record in records && record.period == k.period && k.metric in AcceptedMetrics(record.values);
      var v :| v in record.values && v.accepted && v.metric == k.metric;
      RecordsSay(records, Entry(k.period, v));
      assert RecordSays(record, Entry(k.period, v));
    }
  }

  lemma {:induction false} LackingCount(period: Id, keys: set<Key>, accepted: set<Metric>, metrics: seq<Metric>)
    requires forall m :: m in metrics ==> (Key(period, m) in keys <==> m in accepted)
    requires forall i, j :: 0 <= i < j < |metrics| ==> metrics[i] != metrics[j]
    ensures |Lacking(period, keys, metrics)| + |set m | m in metrics && m in accepted| == |metrics|
  {
    if metrics == [] {
      assert (set m | m in metrics && m in accepted) == {};
    } else {
      var front, last := metrics[..|metrics| - 1], metrics[|metrics| - 1];
      assert metrics == front + [last];
      LackingCount(period, keys, accepted, front);
      assert last !in front;
      assert (set m | m in metrics && m in accepted) == (set m | m in front && m in accepted) + if last in accepted then {last} else {};
    }
  }

  lemma EveryMetric(m: Metric)
    ensures m in METRICS
  {
    assert METRICS[0] == Revenue && METRICS[1] == OperatingProfit && METRICS[2] == ParentProfit
           && METRICS[3] == Assets && METRICS[4] == Equity && METRICS[5] == OperatingCashFlow;
    match m
    case Revenue => case OperatingProfit => case ParentProfit => case Assets => case Equity => case OperatingCashFlow =>
  }

  // The line of a period counted by its own accepted metrics.
  lemma LineCounted(period: Id, keys: set<Key>, accepted: set<Metric>)
    requires forall m :: Key(period, m) in keys <==> m in accepted
    ensures LineFor(period, keys).count == |accepted|
    ensures LineFor(period, keys).level == if LineFor(period, keys).missing == [] then Complete
                                           else if accepted != {} then Partial else Missing
  {
    forall m {
      EveryMetric(m);
    }
    LackingCount(period, keys, accepted, METRICS);
    assert (set m | m in METRICS && m in accepted) == accepted;
  }

  /** The coverage of one report: a period counts once, with the accepted metrics of its record. */
  method AnnualCoverage(required: seq<Id>, records: seq<Record>) returns (lines: Option<seq<Line>>)
    ensures lines.Some? <==> Distinct(records) && forall record :: record in records ==> record.period in required
    ensures lines.Some? ==> lines.value == LinesFor(required, KeysOf(records))
  {
    if !Distinct(records) || exists record :: record in records && record.period !in required {
      return None;
    }
    var result: seq<Line> := [];
    for i := 0 to |required|
      invariant result == LinesFor(required[..i], KeysOf(records))
    {
      assert required[..i + 1][..i] == required[..i];
      var period := required[i];
      var accepted: set<Metric> := {};
      if record :| record in records && record.period == period {
        accepted := AcceptedMetrics(record.values);
        OneRecord(records, record);
      }
      forall m
        ensures Key(period, m) in KeysOf(records) <==> m in accepted
      {
        KeysFrom(records, Key(period, m));
      }
      LineCounted(period, KeysOf(records), accepted);
      var missing := Missed(accepted, METRICS);
      MissedIs(period, KeysOf(records), accepted, METRICS);
      result := result + [Line(period, if missing == [] then Complete else if accepted != {} then Partial else Missing,
                               |accepted|, missing)];
    }
    assert required[..|required|] == required;
    return Some(result);
  }

  function Missed(accepted: set<Metric>, metrics: seq<Metric>): seq<Metric> {
    if metrics == [] then []
    else Missed(accepted, metrics[..|metrics| - 1])
         + if metrics[|metrics| - 1] in accepted then [] else [metrics[|metrics| - 1]]
  }

  lemma {:induction false} MissedIs(period: Id, keys: set<Key>, accepted: set<Metric>, metrics: seq<Metric>)
    requires forall m :: Key(period, m) in keys <==> m in accepted
    ensures Missed(accepted, metrics) == Lacking(period, keys, metrics)
  {
    if metrics != [] {
      MissedIs(period, keys, accepted, metrics[..|metrics| - 1]);
    }
  }

  lemma OneRecord(records: seq<Record>, record: Record)
    requires Distinct(records) && record in records
    ensures forall other :: other in records && other.period == record.period ==> other == record
  {
    var i :| 0 <= i < |records| && records[i] == record;
    forall other | other in records && other.period == record.period
      ensures other == record
    {
      var j :| 0 <= j < |records| && records[j] == other;
      assert !(i < j) && !(j < i);
    }
  }

  // No record has two values for one metric.
  predicate EachMetricOnce(records: seq<Record>) {
    forall record :: record in records ==>
      forall v, w | v in record.values && w in record.values :: v.metric == w.metric ==> v == w
  }

  predicate AcceptedAreFinite(records: seq<Record>) {
    forall record :: record in records ==> forall v :: v in record.values && v.accepted ==> v.amount.Finite?
  }

  /** On a single report whose records have each metric at most once, merging covers exactly the same metrics as the annual
      coverage, and succeeds exactly if that does and every accepted value is a finite number, which it alone looks at. */
  lemma MergeIsAnnual(required: seq<Id>, records: Report)
    requires EachMetricOnce(records)
    ensures WellFormed(required, [records]) && !Conflict([records])
            <==> Distinct(records) && (forall record :: record in records ==> record.period in required) && AcceptedAreFinite(records)
    ensures forall k :: Covered([records], k) <==> k in KeysOf(records)
  {
    hide Agree, Same;
    assert records in [records];
    forall e
      ensures Accepts([records], e) <==> e in RecordEntries(records) && e.value.accepted
    {
      ReportsSay([records], e);
      assert [records][..0] == [];
    }
    AcceptedFinite(records);
    if Distinct(records) && AcceptedAreFinite(records) {
      forall e, f | Accepts([records], e) && Accepts([records], f) && KeyOf(e) == KeyOf(f)
        ensures Agree(e.value, f.value)
      {
        RecordsSay(records, e);
        RecordsSay(records, f);
        var x :| x in records && RecordSays(x, e);
        var y :| y in records && RecordSays(y, f);
        OneRecord(records, x);
        AgreeTransitive(e.value, e.value, e.value);
      }
    }
  }

  lemma AcceptedFinite(records: Report)
    ensures (forall e :: Accepts([records], e) ==> e.value.amount.Finite?) <==> AcceptedAreFinite(records)
  {
    assert records in [records];
    forall record, v | record in records && v in record.values && v.accepted
      ensures Accepts([records], Entry(record.period, v))
    {
      assert RecordSays(record, Entry(record.period, v));
    }
  }

  // One record whose only value is accepted but absent.
  const UNREAD: Report := [Record(1, [Value(Revenue, true, Absent, 0, 0)])]

  /** An accepted value that is absent makes the difference: the annual coverage counts it, the merge rejects it. */
  lemma MergeRejectsMore()
    ensures EachMetricOnce(UNREAD) && Distinct(UNREAD) && forall record :: record in UNREAD ==> record.period in [1]
    ensures Key(1, Revenue) in KeysOf(UNREAD)
    ensures !WellFormed([1], [UNREAD])
  {
    var value := Value(Revenue, true, Absent, 0, 0);
    assert UNREAD[0] in UNREAD && UNREAD[0].values[0] == value && value in UNREAD[0].values;
    assert Revenue in AcceptedMetrics(UNREAD[0].values);
    AcceptedFinite(UNREAD);
    KeysFrom(UNREAD, Key(1, Revenue));
  }

  lemma LineAt(required: seq<Id>, keys: set<Key>, i: nat)
    requires i < |required|
    ensures |LinesFor(required, keys)| == |required| && LinesFor(required, keys)[i] == LineFor(required[i], keys)
    decreases |required|
  {
    if i < |required| - 1 {
      LineAt(required[..|required| - 1], keys, i);
    } else if |required| > 1 {
      LineAt(required[..|required| - 1], keys, 0);
    }
  }

  /** The line of a required period counts its covered metrics and names the others; it is complete with all six, missing with
      none, and partial otherwise. */
  lemma LineIs(required: seq<Id>, keys: set<Key>, i: nat)
    requires i < |required|
    ensures |LinesFor(required, keys)| == |required|
    ensures var line := LinesFor(required, keys)[i]; var covered := set m: Metric | Key(required[i], m) in keys;
            && line.period == required[i] && line.count == |covered|
            && (forall m :: m in line.missing <==> m !in covered)
            && (line.level == Complete <==> line.count == 6) && (line.level == Missing <==> line.count == 0)
            && |line.missing| + line.count == 6
  {
    LineAt(required, keys, i);
    var covered := set m: Metric | Key(required[i], m) in keys;
    LineCounted(required[i], keys, covered);
    LackingShort(required[i], keys, METRICS);
    forall m {
      EveryMetric(m);
    }
    hide LinesFor, Lacking;
  }
}
