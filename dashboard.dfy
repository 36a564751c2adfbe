/**
 * The dashboard's derived data: the overall metrics reduced from the user's
 * reports, the comparison chart series built from the selected reports, and
 * the selection read from the multi-select control.
 */
module Dashboard {
  import opened Wrappers

  /** A report's `summary` counters as the backend sends them; an absent field is `None`. */
  datatype Summary = Summary(totalIssues: Option<nat>, criticalIssues: Option<nat>)

  /**
   * One saved report: `_id`, `url`, `timestamp` and `summary`. The timestamp
   * stands for the instant `new Date(timestamp)` parses it to.
   */
  datatype Report = Report(id: string, url: string, timestamp: int, summary: Summary)

  /** The two summary counters the dashboard adds up. */
  datatype Counter = TotalIssues | CriticalIssues

  /** The overall metrics object: counters, and the date and URL of the most recent report. */
  datatype Metrics = Metrics(
    totalIssuesFound: nat,
    reportsAnalyzed: nat,
    criticalIssues: nat,
    lastReportDate: Option<int>,
    lastReportUrl: Option<string>)

  /** JavaScript `value || 0` on a count: an absent value and 0 both give 0. */
  function OrZero(v: Option<nat>): nat
  {
    match v
    case Some(n) => n
    case None => 0
  }

  /** The value a report contributes for one counter. */
  function Count(r: Report, c: Counter): nat
  {
    match c
    case TotalIssues => OrZero(r.summary.totalIssues)
    case CriticalIssues => OrZero(r.summary.criticalIssues)
  }

  /** The sum of one counter over a list of reports. */
  function Sum(rs: seq<Report>, c: Counter): nat
  {
    if rs == [] then 0 else Count(rs[0], c) + Sum(rs[1..], c)
  }

  lemma {:induction false} SumAppend(a: seq<Report>, b: seq<Report>, c: Counter)
    ensures Sum(a + b, c) == Sum(a, c) + Sum(b, c)
  {
    if a == [] {
      assert a + b == b;
    } else {
      assert (a + b)[1..] == a[1..] + b;
      SumAppend(a[1..], b, c);
    }
  }

  /** Removing report `i` takes its count off the sum. */
  lemma SumRemove(b: seq<Report>, i: int, c: Counter)
    requires 0 <= i < |b|
    ensures Sum(b, c) == Count(b[i], c) + Sum(b[..i] + b[i + 1..], c)
  {
    assert b == b[..i] + b[i..];
    assert b[i..][1..] == b[i + 1..];
    SumAppend(b[..i], b[i..], c);
    SumAppend(b[..i], b[i + 1..], c);
  }

  lemma MultisetRemove(b: seq<Report>, i: int)
    requires 0 <= i < |b|
    ensures multiset(b[..i] + b[i + 1..]) == multiset(b) - multiset{b[i]}
  {
    assert b == b[..i] + [b[i]] + b[i + 1..];
  }

  /** The totals do not depend on the order of the reports. */
  lemma {:induction false} SumPermutation(a: seq<Report>, b: seq<Report>, c: Counter)
    requires multiset(a) == multiset(b)
    ensures Sum(a, c) == Sum(b, c)
  {
    if a == [] {
      assert |b| == |multiset(b)| == 0;
    } else {
      var x := a[0];
      assert x in multiset(b);
      var i :| 0 <= i < |b| && b[i] == x;
      MultisetRemove(b, i);
      assert a == [x] + a[1..];
      assert multiset(a[1..]) == multiset(a) - multiset{x};
      SumPermutation(a[1..], b[..i] + b[i + 1..], c);
      SumRemove(b, i, c);
    }
  }

  /** Report `k` has the greatest timestamp of `rs`, and no earlier report has the same one. */
  predicate IsLatest(rs: seq<Report>, k: int)
  {
    && 0 <= k < |rs|
    && (forall j :: 0 <= j < |rs| ==> rs[j].timestamp <= rs[k].timestamp)
    && (forall j :: 0 <= j < k ==> rs[j].timestamp < rs[k].timestamp)
  }

  /** At most one report is the latest, so the metrics' last date and URL are determined. */
  lemma LatestIsUnique(rs: seq<Report>, k1: int, k2: int)
    requires IsLatest(rs, k1) && IsLatest(rs, k2)
    ensures k1 == k2
  {
    assert rs[k1].timestamp == rs[k2].timestamp;
  }

  /**
   * The latest timestamp does not depend on the order of the reports (which
   * report supplies the URL may, when two share the greatest timestamp).
   */
  lemma LatestDateOrderIndependent(a: seq<Report>, b: seq<Report>, ka: int, kb: int)
    requires multiset(a) == multiset(b)
    requires IsLatest(a, ka) && IsLatest(b, kb)
    ensures a[ka].timestamp == b[kb].timestamp
  {
    assert a[ka] in multiset(b);
    assert b[kb] in multiset(a);
    var i :| 0 <= i < |b| && b[i] == a[ka];
    var j :| 0 <= j < |a| && a[j] == b[kb];
  }

  /**
   * The metrics reduction: one left-to-right pass that adds up the counters
   * and keeps the date and URL of the report with the strictly greatest
   * timestamp seen so far.
   */
  method OverallMetrics(rs: seq<Report>) returns (m: Metrics)
    ensures m.reportsAnalyzed == |rs|
    ensures m.totalIssuesFound == Sum(rs, TotalIssues)
    ensures m.criticalIssues == Sum(rs, CriticalIssues)
    ensures rs == [] ==> m.lastReportDate == None && m.lastReportUrl == None
    ensures rs != [] ==> exists k :: IsLatest(rs, k) && m.lastReportDate == Some(rs[k].timestamp)
                                    && m.lastReportUrl == Some(rs[k].url)
  {
    var acc := Metrics(0, 0, 0, None, None);
    ghost var latest := 0;
    var i := 0;
    while i < |rs|
      invariant 0 <= i <= |rs|
      invariant acc.reportsAnalyzed == i
      invariant acc.totalIssuesFound == Sum(rs[..i], TotalIssues)
      invariant acc.criticalIssues == Sum(rs[..i], CriticalIssues)
      invariant i == 0 ==> acc.lastReportDate == None && acc.lastReportUrl == None
      invariant i > 0 ==> && IsLatest(rs[..i], latest)
                          && acc.lastReportDate == Some(rs[latest].timestamp)
                          && acc.lastReportUrl == Some(rs[latest].url)
    {
      var report := rs[i];
      assert rs[..i + 1] == rs[..i] + [report];
      SumAppend(rs[..i], [report], TotalIssues);
      SumAppend(rs[..i], [report], CriticalIssues);
      acc := acc.(totalIssuesFound := acc.totalIssuesFound + Count(report, TotalIssues));
      acc := acc.(reportsAnalyzed := acc.reportsAnalyzed + 1);
      acc := acc.(criticalIssues := acc.criticalIssues + Count(report, CriticalIssues));
      if acc.lastReportDate.None? || report.timestamp > acc.lastReportDate.value {
        acc := acc.(lastReportDate := Some(report.timestamp), lastReportUrl := Some(report.url));
        latest := i;
      }
      i := i + 1;
    }
    assert rs[..i] == rs;
    m := acc;
  }

  /** The reports whose `_id` is among the selected ids, in the order of `rs`. */
  function Selected(rs: seq<Report>, ids: seq<string>): (f: seq<Report>)
    ensures |f| <= |rs|
  {
    if rs == [] then [] else (if rs[0].id in ids then [rs[0]] else []) + Selected(rs[1..], ids)
  }

  /** Filtering keeps every copy of each selected report and nothing else. */
  lemma {:induction false} SelectedExactly(rs: seq<Report>, ids: seq<string>)
    ensures forall r :: multiset(Selected(rs, ids))[r] == if r.id in ids then multiset(rs)[r] else 0
  {
    if rs != [] {
      assert rs == [rs[0]] + rs[1..];
      SelectedExactly(rs[1..], ids);
    }
  }

  /** Filtering keeps the order of the report list: it commutes with concatenation. */
  lemma {:induction false} SelectedAppend(a: seq<Report>, b: seq<Report>, ids: seq<string>)
    ensures Selected(a + b, ids) == Selected(a, ids) + Selected(b, ids)
  {
    if a == [] {
      assert a + b == b;
    } else {
      var head := if a[0].id in ids then [a[0]] else [];
      assert (a + b)[0] == a[0];
      assert (a + b)[1..] == a[1..] + b;
      SelectedAppend(a[1..], b, ids);
      assert Selected(a + b, ids) == head + (Selected(a[1..], ids) + Selected(b, ids));
      assert head + (Selected(a[1..], ids) + Selected(b, ids)) == (head + Selected(a[1..], ids)) + Selected(b, ids);
    }
  }

  /** Only which ids are selected matters, not their order or repetition. */
  lemma {:induction false} SelectedIgnoresSelectionOrder(rs: seq<Report>, ids1: seq<string>, ids2: seq<string>)
    requires forall x :: x in ids1 <==> x in ids2
    ensures Selected(rs, ids1) == Selected(rs, ids2)
  {
    if rs != [] {
      SelectedIgnoresSelectionOrder(rs[1..], ids1, ids2);
    }
  }

  /** The three index-aligned chart arrays: labels, critical counts and total counts. */
  datatype ChartSeries = ChartSeries(labels: seq<string>, critical: seq<nat>, total: seq<nat>)

  const EmptySeries := ChartSeries([], [], [])

  /** The hostname of the URL, or the raw URL when `hostOf` (the URL parser) rejects it. */
  function Label(url: string, hostOf: string -> Option<string>): string
  {
    hostOf(url).GetOr(url)
  }

  /** The three `map`s over an already filtered list of reports. */
  function Series(f: seq<Report>, hostOf: string -> Option<string>): (c: ChartSeries)
    ensures |c.labels| == |c.critical| == |c.total| == |f|
    ensures forall i :: 0 <= i < |f| ==> && c.labels[i] == Label(f[i].url, hostOf)
                                         && c.critical[i] == Count(f[i], CriticalIssues)
                                         && c.total[i] == Count(f[i], TotalIssues)
  {
    if f == [] then EmptySeries
    else
      var c := Series(f[1..], hostOf);
      ChartSeries([Label(f[0].url, hostOf)] + c.labels,
                  [Count(f[0], CriticalIssues)] + c.critical,
                  [Count(f[0], TotalIssues)] + c.total)
  }

  /** The chart-series effect: filter the reports by the selection, then map them to the three arrays. */
  function ComparisonSeries(rs: seq<Report>, ids: seq<string>, hostOf: string -> Option<string>): (c: ChartSeries)
    ensures |c.labels| == |c.critical| == |c.total| == |Selected(rs, ids)|
  {
    Series(Selected(rs, ids), hostOf)
  }

  /** The sum of a numeric series. */
  function Total(xs: seq<nat>): nat
  {
    if xs == [] then 0 else xs[0] + Total(xs[1..])
  }

  /** Each bar series adds up to the corresponding counter over the reports it was built from. */
  lemma {:induction false} SeriesTotals(f: seq<Report>, hostOf: string -> Option<string>)
    ensures Total(Series(f, hostOf).critical) == Sum(f, CriticalIssues)
    ensures Total(Series(f, hostOf).total) == Sum(f, TotalIssues)
  {
    if f != [] {
      SeriesTotals(f[1..], hostOf);
      var c := Series(f[1..], hostOf);
      assert Series(f, hostOf).critical[1..] == c.critical;
      assert Series(f, hostOf).total[1..] == c.total;
    }
  }

  /** With every report selected, the chart's bars add up to the overall metrics' counters. */
  lemma ComparisonOfAllMatchesMetrics(rs: seq<Report>, ids: seq<string>, hostOf: string -> Option<string>)
    requires forall r :: r in rs ==> r.id in ids
    ensures Selected(rs, ids) == rs
    ensures Total(ComparisonSeries(rs, ids, hostOf).critical) == Sum(rs, CriticalIssues)
    ensures Total(ComparisonSeries(rs, ids, hostOf).total) == Sum(rs, TotalIssues)
  {
    SelectedEverything(rs, ids);
    SeriesTotals(rs, hostOf);
  }

  lemma {:induction false} SelectedEverything(rs: seq<Report>, ids: seq<string>)
    requires forall r :: r in rs ==> r.id in ids
    ensures Selected(rs, ids) == rs
  {
    if rs != [] {
      assert rs == [rs[0]] + rs[1..];
      SelectedEverything(rs[1..], ids);
    }
  }

  /** The chart is drawn when the selection is non-empty; otherwise the placeholder is shown. */
  predicate ShowsChart(ids: seq<string>)
  {
    |ids| > 0
  }

  /** An empty selection gives empty series and the placeholder. */
  lemma EmptySelection(rs: seq<Report>, hostOf: string -> Option<string>)
    ensures ComparisonSeries(rs, [], hostOf) == EmptySeries
    ensures !ShowsChart([])
  {
    assert Selected(rs, []) == [] by {
      NothingSelected(rs, []);
    }
  }

  lemma {:induction false} NothingSelected(rs: seq<Report>, ids: seq<string>)
    requires forall r :: r in rs ==> r.id !in ids
    ensures Selected(rs, ids) == []
  {
    if rs != [] {
      NothingSelected(rs[1..], ids);
    }
  }

  /**
   * The placeholder is keyed on the selection, not on the filtered list: a
   * selection that matches no report still draws the chart, with no bars.
   */
  lemma UnmatchedSelectionDrawsEmptyChart(rs: seq<Report>, ids: seq<string>, hostOf: string -> Option<string>)
    requires ids != []
    requires forall r :: r in rs ==> r.id !in ids
    ensures ShowsChart(ids)
    ensures ComparisonSeries(rs, ids, hostOf) == EmptySeries
  {
    NothingSelected(rs, ids);
  }

  /** The selection after the reports are fetched: reset to `[]` when the list is empty. */
  function SelectionAfterFetch(data: seq<Report>, ids: seq<string>): (sel: seq<string>)
    ensures data == [] ==> sel == []
    ensures data != [] ==> sel == ids
  {
    if |data| == 0 then [] else ids
  }

  /** Fetching an empty list clears the chart and shows the placeholder. */
  lemma EmptyFetchShowsPlaceholder(ids: seq<string>, hostOf: string -> Option<string>)
    ensures !ShowsChart(SelectionAfterFetch([], ids))
    ensures ComparisonSeries([], SelectionAfterFetch([], ids), hostOf) == EmptySeries
  {
  }

  /** One `<option>` of the multi-select: its `value` (a report id) and whether it is selected. */
  datatype SelectOption = SelectOption(value: string, selected: bool)

  /** The values of the selected options, in option order. */
  function Chosen(options: seq<SelectOption>): seq<string>
  {
    if options == [] then []
    else (if options[0].selected then [options[0].value] else []) + Chosen(options[1..])
  }

  lemma {:induction false} ChosenAppend(a: seq<SelectOption>, b: seq<SelectOption>)
    ensures Chosen(a + b) == Chosen(a) + Chosen(b)
  {
    if a == [] {
      assert a + b == b;
    } else {
      var head := if a[0].selected then [a[0].value] else [];
      assert (a + b)[0] == a[0];
      assert (a + b)[1..] == a[1..] + b;
      ChosenAppend(a[1..], b);
      assert Chosen(a + b) == head + (Chosen(a[1..]) + Chosen(b));
      assert head + (Chosen(a[1..]) + Chosen(b)) == (head + Chosen(a[1..])) + Chosen(b);
    }
  }

  /** A value is chosen exactly when some selected option carries it. */
  lemma {:induction false} ChosenMembers(options: seq<SelectOption>, v: string)
    ensures v in Chosen(options) <==> exists i :: 0 <= i < |options| && options[i].selected && options[i].value == v
  {
    if options != [] {
      ChosenMembers(options[1..], v);
      if v in Chosen(options[1..]) {
        var i :| 0 <= i < |options[1..]| && options[1..][i].selected && options[1..][i].value == v;
        assert options[i + 1] == options[1..][i];
      }
      if exists i :: 0 <= i < |options| && options[i].selected && options[i].value == v {
        var i :| 0 <= i < |options| && options[i].selected && options[i].value == v;
        if i > 0 {
          assert options[1..][i - 1] == options[i];
        }
      }
    }
  }

  /** The number of selected options. */
  function CountSelected(options: seq<SelectOption>): nat
  {
    if options == [] then 0 else (if options[0].selected then 1 else 0) + CountSelected(options[1..])
  }

  /** One value per selected option, and no more. */
  lemma {:induction false} ChosenLength(options: seq<SelectOption>)
    ensures |Chosen(options)| == CountSelected(options)
  {
    if options != [] {
      ChosenLength(options[1..]);
    }
  }

  /** The selection-change handler: an index loop pushing the value of every selected option. */
  method SelectionChange(options: seq<SelectOption>) returns (value: seq<string>)
    ensures value == Chosen(options)
  {
    value := [];
    var i, l := 0, |options|;
    while i < l
      invariant 0 <= i <= l == |options|
      invariant value == Chosen(options[..i])
    {
      assert options[..i + 1] == options[..i] + [options[i]];
      ChosenAppend(options[..i], [options[i]]);
      if options[i].selected {
        value := value + [options[i].value];
      }
      i := i + 1;
    }
    assert options[..i] == options;
  }
}
