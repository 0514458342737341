/** The traffic aggregation of `GitHubTrafficAnalyzer.analyze_traffic_trends`:
    totals, daily averages, peak days and the length of the analysed period. */
module Traffic {
  import opened Wrappers

  /** One day of the views or clones series: `{timestamp, count, uniques}`. */
  datatype DailyPoint = DailyPoint(timestamp: string, count: nat, uniques: nat)

  type Series = seq<DailyPoint>

  /** The JSON object returned by `/traffic/views` or `/traffic/clones`. Each known key
      is optional; `series` is the `views` key (resp. `clones` key) of the response,
      and `otherKeys` says whether the object holds any further key. */
  datatype TrafficPayload = TrafficPayload(
    count: Option<nat>,
    uniques: Option<nat>,
    series: Option<Series>,
    otherKeys: bool)

  /** Python truthiness of a fetch result: `None` and the empty dict are falsy. */
  predicate Truthy(p: Option<TrafficPayload>)
    ensures Truthy(p) <==> p.Some? && p.value != TrafficPayload(None, None, None, false)
  {
    p.Some? && (p.value.count.Some? || p.value.uniques.Some? || p.value.series.Some? || p.value.otherKeys)
  }

  /** `data.get('views', [])` (resp. `'clones'`) on a payload that is present. */
  function SeriesOf(p: TrafficPayload): (r: Series)
    ensures p.series.Some? ==> r == p.series.value
    ensures p.series.None? ==> r == []
  {
    p.series.GetOr([])
  }

  /** Which per-day number a total is taken over. */
  datatype Metric = Count | Uniques

  function Value(d: DailyPoint, m: Metric): nat
  {
    match m
    case Count => d.count
    case Uniques => d.uniques
  }

  /** `sum(item[m] for item in s)`, folded from the left as Python's `sum` does.
      No single day exceeds the total. */
  function Total(s: Series, m: Metric): (r: nat)
    ensures forall j :: 0 <= j < |s| ==> Value(s[j], m) <= r
    ensures s == [] ==> r == 0
  {
    if s == [] then 0 else Total(s[..|s| - 1], m) + Value(s[|s| - 1], m)
  }

  /** `total / len(s) if s else 0`, kept exact (the source's `round(_, 2)` is not modelled). */
  function Average(total: nat, days: nat): (r: real)
    ensures days > 0 ==> r * days as real == total as real
    ensures days == 0 ==> r == 0.0
    ensures r >= 0.0
  {
    if days > 0 then total as real / days as real else 0.0
  }

  /** The index `max(s, key=lambda x: x['count'])` picks: a left-to-right scan that only
      replaces the current best on a strictly greater count, so the first maximum wins. */
  function PeakIndex(s: Series): (i: nat)
    requires |s| > 0
    ensures i < |s|
    ensures forall j :: 0 <= j < |s| ==> s[j].count <= s[i].count
    ensures forall j :: 0 <= j < i ==> s[j].count < s[i].count
  {
    if |s| == 1 then 0
    else
      var best := PeakIndex(s[..|s| - 1]);
      if s[|s| - 1].count > s[best].count then |s| - 1 else best
  }

  /** `peak_*_day`: the first day of maximal count, `{}` (here `None`) for an empty series. */
  function Peak(s: Series): (r: Option<DailyPoint>)
    ensures r.None? <==> s == []
    ensures r.Some? ==> r.value in s
    ensures r.Some? ==> forall j :: 0 <= j < |s| ==> s[j].count <= r.value.count
    ensures r.Some? ==> exists i :: 0 <= i < |s| && s[i] == r.value && forall j :: 0 <= j < i ==> s[j].count < s[i].count
  {
    if s == [] then None else Some(s[PeakIndex(s)])
  }

  /** The dict `analyze_traffic_trends` returns: `{}` or all nine fields. */
  datatype Summary =
    | EmptySummary
    | Summary(
        totalViews: nat,
        totalUniqueVisitors: nat,
        totalClones: nat,
        totalUniqueCloners: nat,
        averageDailyViews: real,
        averageDailyClones: real,
        peakViewsDay: Option<DailyPoint>,
        peakClonesDay: Option<DailyPoint>,
        analysisPeriodDays: nat)

  /** `analyze_traffic_trends(views_data, clones_data)`. */
  function AnalyzeTrafficTrends(viewsData: Option<TrafficPayload>, clonesData: Option<TrafficPayload>): (r: Summary)
    ensures r.EmptySummary? <==> !Truthy(viewsData) || !Truthy(clonesData)
    ensures r.Summary? ==>
      var views := SeriesOf(viewsData.value);
      var clones := SeriesOf(clonesData.value);
      && r.totalViews == Total(views, Count)
      && r.totalUniqueVisitors == Total(views, Uniques)
      && r.totalClones == Total(clones, Count)
      && r.totalUniqueCloners == Total(clones, Uniques)
      && r.analysisPeriodDays == |views|
      && r.averageDailyViews == Average(r.totalViews, |views|)
      && r.averageDailyClones == Average(r.totalClones, |clones|)
      && (r.peakViewsDay.None? <==> views == [])
      && (r.peakClonesDay.None? <==> clones == [])
      && r.peakViewsDay == Peak(views)
      && r.peakClonesDay == Peak(clones)
      && (r.peakViewsDay.Some? ==> r.peakViewsDay.value in views)
      && (r.peakClonesDay.Some? ==> r.peakClonesDay.value in clones)
  {
    if !Truthy(viewsData) || !Truthy(clonesData) then EmptySummary
    else
      var views := SeriesOf(viewsData.value);
      var clones := SeriesOf(clonesData.value);
      var totalViews := Total(views, Count);
      var totalClones := Total(clones, Count);
      Summary(
        totalViews,
        Total(views, Uniques),
        totalClones,
        Total(clones, Uniques),
        Average(totalViews, |views|),
        Average(totalClones, |clones|),
        Peak(views),
        Peak(clones),
        |views|)
  }

  /** Totals are additive: the total of two consecutive stretches of days is the sum
      of their totals. */
  lemma {:induction false} TotalAppend(a: Series, b: Series, m: Metric)
    ensures Total(a + b, m) == Total(a, m) + Total(b, m)
    decreases |b|
  {
    if b == [] {
      assert a + b == a;
    } else {
      var b' := b[..|b| - 1];
      assert (a + b)[..|a + b| - 1] == a + b';
      assert (a + b)[|a + b| - 1] == b[|b| - 1];
      TotalAppend(a, b', m);
    }
  }

  /** A series of `n` days never totals more than `n` times any bound on its daily values. */
  lemma {:induction false} TotalAtMostDaysTimesBound(s: Series, m: Metric, bound: nat)
    requires forall j :: 0 <= j < |s| ==> Value(s[j], m) <= bound
    ensures Total(s, m) <= |s| * bound
    decreases |s|
  {
    if s != [] {
      var s' := s[..|s| - 1];
      forall j | 0 <= j < |s'| ensures Value(s'[j], m) <= bound {
        assert s'[j] == s[j];
      }
      TotalAtMostDaysTimesBound(s', m, bound);
      assert Value(s[|s| - 1], m) <= bound;
      assert Total(s, m) == Total(s', m) + Value(s[|s| - 1], m);
      assert |s| * bound == |s'| * bound + bound;
    }
  }

  /** An average over `days` days of a total at most `days * bound` is at most `bound`. */
  lemma AverageAtMost(total: nat, days: nat, bound: nat)
    requires days > 0 && total <= days * bound
    ensures Average(total, days) <= bound as real
  {
    var r := Average(total, days);
    var d := days as real;
    assert r * d == total as real;
    assert total as real <= d * bound as real;
    assert (r - bound as real) * d <= 0.0;
  }

  /** The average daily views never exceed the peak day's views, and the peak day's
      views never exceed the total. */
  lemma AverageAtMostPeak(viewsData: Option<TrafficPayload>, clonesData: Option<TrafficPayload>)
    requires AnalyzeTrafficTrends(viewsData, clonesData).Summary?
    ensures var r := AnalyzeTrafficTrends(viewsData, clonesData);
      r.peakViewsDay.Some? ==>
        r.averageDailyViews <= r.peakViewsDay.value.count as real
        && r.peakViewsDay.value.count <= r.totalViews
  {
    var r := AnalyzeTrafficTrends(viewsData, clonesData);
    var views := SeriesOf(viewsData.value);
    if views != [] {
      var p := views[PeakIndex(views)];
      assert r.peakViewsDay == Some(p);
      TotalAtMostDaysTimesBound(views, Count, p.count);
      AverageAtMost(r.totalViews, |views|, p.count);
    }
  }

  /** `analysis_period_days` depends on the views series only: replacing the clones
      fetch by any other truthy one leaves it unchanged. */
  lemma PeriodIgnoresClones(viewsData: Option<TrafficPayload>, c1: Option<TrafficPayload>, c2: Option<TrafficPayload>)
    requires Truthy(viewsData) && Truthy(c1) && Truthy(c2)
    ensures AnalyzeTrafficTrends(viewsData, c1).analysisPeriodDays == AnalyzeTrafficTrends(viewsData, c2).analysisPeriodDays
    ensures AnalyzeTrafficTrends(viewsData, c1).analysisPeriodDays == |SeriesOf(viewsData.value)|
  {
  }

  /** Python's `max` with a key keeps the first maximum: counts 5, 9, 3 give the second
      day, and a tie between two days of count 9 gives the first of them. */
  lemma PeakTieBreak()
    ensures PeakIndex([DailyPoint("d1", 5, 1), DailyPoint("d2", 9, 2), DailyPoint("d3", 3, 3)]) == 1
    ensures Peak([DailyPoint("d1", 9, 1), DailyPoint("d2", 9, 2)]) == Some(DailyPoint("d1", 9, 1))
  {
    var tie := [DailyPoint("d1", 9, 1), DailyPoint("d2", 9, 2)];
    assert tie[..1] == [tie[0]];
    var s := [DailyPoint("d1", 5, 1), DailyPoint("d2", 9, 2), DailyPoint("d3", 3, 3)];
    assert s[..2] == [s[0], s[1]];
    assert s[..2][..1] == [s[0]];
  }
}
