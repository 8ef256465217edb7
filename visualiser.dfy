/**
 * The plotting pipeline behind the fetch button, once the payload is a list
 * of records flattened into a DataFrame: resolve and assign the `date`
 * column, then either count rows per day (every kind but GST) or explode the
 * GST Kp sub-readings and average `kpIndex` per day, and pick the chart.
 */
module Visualiser {
  import opened Common
  import opened Dates
  import opened EventKinds
  import opened Frames
  import opened DateColumn
  import opened Grouping
  import opened KpReadings

  const NO_KP_MESSAGE := "No 'allKpIndex' data available to plot."
  const OBSERVED_TIME := "observedTime"
  const KP_INDEX := "kpIndex"
  /** What pandas raises when the exploded table lacks `observedTime`. */
  const OBSERVED_TIME_KEY_ERROR := "KeyError: 'observedTime'"
  /** What pandas raises when `agg({'kpIndex': 'mean'})` finds no `kpIndex` column. */
  const KP_INDEX_KEY_ERROR := "KeyError: \"Column(s) ['kpIndex'] do not exist\""

  /** Points of the plotted frame: `(date, count)` rows, or `(date, mean kpIndex)` rows with NaN as None. */
  datatype Series = Counts(counts: seq<(Date, nat)>) | KpMeans(means: seq<(Date, Option<real>)>)

  /** The plotly figure, reduced to its kind, its y-axis label (None: plotly's default) and its data. */
  datatype Chart = Chart(style: ChartStyle, yLabel: Option<string>, series: Series)

  /** What one press of the button shows: messages in order, the chart if any, the exception if one escapes. */
  datatype Report = Report(notices: seq<Notice>, chart: Option<Chart>, raised: Option<string>)

  /** The `date` column read back as group keys, each row kept as the group member. */
  function DateItems(rows: seq<Row>): (items: seq<(Option<Date>, Row)>)
    ensures |items| == |rows|
  {
    seq(|rows|, i requires 0 <= i < |rows| => (DateOf(CellOf(rows[i], "date")), rows[i]))
  }

  /** `.size().reset_index(name='count')`. */
  function CountPoints<V>(gs: seq<Group<V>>): (pts: seq<(Date, nat)>)
    ensures |pts| == |gs|
  {
    seq(|gs|, i requires 0 <= i < |gs| => (gs[i].date, |gs[i].members|))
  }

  /** A `kpIndex` cell as the mean reads it: numbers count, NaN is skipped. */
  function KpOf(v: Value): Option<real> {
    if v.Num? then Some(v.x) else None
  }

  /** The exploded readings keyed by the date of `observedTime`, carrying their `kpIndex`. */
  function ReadingItems(readings: seq<Row>, toDate: Value -> Option<Date>): (items: seq<(Option<Date>, Option<real>)>)
    ensures |items| == |readings|
  {
    seq(|readings|, i requires 0 <= i < |readings| =>
      (ParseCell(toDate, CellOf(readings[i], OBSERVED_TIME)), KpOf(CellOf(readings[i], KP_INDEX))))
  }

  /** `.agg({'kpIndex': 'mean'}).reset_index()`. */
  function MeanPoints(gs: seq<Group<Option<real>>>): (pts: seq<(Date, Option<real>)>)
    ensures |pts| == |gs|
  {
    seq(|gs|, i requires 0 <= i < |gs| => (gs[i].date, Mean(gs[i].members)))
  }

  /** A column exists in a table built from records when some record has the key. */
  predicate HasColumn(rows: seq<Row>, key: string) {
    exists i :: 0 <= i < |rows| && key in rows[i]
  }

  /** The label passed in `labels=`; the notifications chart passes none, so plotly shows the column name. */
  function ShownYLabel(kind: string): (l: Option<string>)
    ensures l.None? <==> kind == "notifications"
    ensures l.Some? ==> l.value == YLabel(kind)
  {
    if kind == "notifications" then None else Some(YLabel(kind))
  }

  /** The count branches (CME, notifications and every other kind but GST). */
  function CountReport(kind: string, notices: seq<Notice>, dated: seq<Row>): Report {
    var groups := GroupByDate(DateItems(dated));
    Report(notices, Some(Chart(ChartStyleFor(kind), ShownYLabel(kind), Counts(CountPoints(groups)))), None)
  }

  /** The GST branch, on the table that already has its `date` column. */
  function GstReport(notices: seq<Notice>, columns: seq<string>, dated: seq<Row>, toDate: Value -> Option<Date>): Report {
    if KP_COLUMN !in columns then Report(notices + [Error(NO_KP_MESSAGE)], None, None)
    else
      var readings := Explode(dated);
      if !HasColumn(readings, OBSERVED_TIME) then Report(notices, None, Some(OBSERVED_TIME_KEY_ERROR))
      else if !HasColumn(readings, KP_INDEX) then Report(notices, None, Some(KP_INDEX_KEY_ERROR))
      else
        var groups := GroupByDate(ReadingItems(readings, toDate));
        Report(notices, Some(Chart(ChartStyleFor("GST"), ShownYLabel("GST"), KpMeans(MeanPoints(groups)))), None)
  }

  /** What the pipeline shows for a table with these columns and rows. */
  function ExpectedReport(kind: string, columns: seq<string>, rows: seq<Row>, toDate: Value -> Option<Date>): Report {
    var notices := DateNotices(ResolveDateField(kind, columns));
    var dated := WithDates(rows, ResolvedDates(kind, columns, rows, toDate));
    if kind == "GST" then GstReport(notices, WithColumn(columns, "date"), dated, toDate)
    else CountReport(kind, notices, dated)
  }

  /** The branch on the selected kind after the `date` column is assigned. */
  method Render(df: DataFrame, kind: string, toDate: Value -> Option<Date>) returns (report: Report)
    requires df.Valid()
    modifies df
    ensures df.Valid()
    ensures df.columns == WithColumn(old(df.columns), "date")
    ensures df.rows == WithDates(old(df.rows), ResolvedDates(kind, old(df.columns), old(df.rows), toDate))
    ensures report == ExpectedReport(kind, old(df.columns), old(df.rows), toDate)
  {
    var notices := AssignDateColumn(df, kind, toDate);
    if kind == "CME" {
      var groups := GroupByDate(DateItems(df.rows));
      report := Report(notices, Some(Chart(Line, Some(YLabel(kind)), Counts(CountPoints(groups)))), None);
    } else if kind == "GST" {
      if KP_COLUMN in df.columns {
        var readings := ExplodeReadings(df.rows);
        if !HasColumn(readings, OBSERVED_TIME) {
          report := Report(notices, None, Some(OBSERVED_TIME_KEY_ERROR));
        } else if !HasColumn(readings, KP_INDEX) {
          report := Report(notices, None, Some(KP_INDEX_KEY_ERROR));
        } else {
          var groups := GroupByDate(ReadingItems(readings, toDate));
          report := Report(notices, Some(Chart(Line, Some(YLabel(kind)), KpMeans(MeanPoints(groups)))), None);
        }
      } else {
        report := Report(notices + [Error(NO_KP_MESSAGE)], None, None);
      }
    } else if kind == "notifications" {
      var groups := GroupByDate(DateItems(df.rows));
      report := Report(notices, Some(Chart(Bar, None, Counts(CountPoints(groups)))), None);
    } else {
      var groups := GroupByDate(DateItems(df.rows));
      report := Report(notices, Some(Chart(Bar, Some(YLabel(kind)), Counts(CountPoints(groups)))), None);
    }
  }

  /** How many rows have `d` as their resolved date. */
  function Occurrences(dates: seq<Option<Date>>, d: Date): nat
    decreases |dates|
  {
    if dates == [] then 0
    else Occurrences(dates[..|dates| - 1], d) + (if dates[|dates| - 1] == Some(d) then 1 else 0)
  }

  /** How many rows have a resolved date at all. */
  function NonNull(dates: seq<Option<Date>>): nat
    decreases |dates|
  {
    if dates == [] then 0
    else NonNull(dates[..|dates| - 1]) + (if dates[|dates| - 1].Some? then 1 else 0)
  }

  function SumCounts(pts: seq<(Date, nat)>): nat
    decreases |pts|
  {
    if pts == [] then 0 else pts[0].1 + SumCounts(pts[1..])
  }

  lemma {:induction false} KeysCount<V>(items: seq<(Option<Date>, V)>, dates: seq<Option<Date>>, d: Date)
    requires |items| == |dates|
    requires forall i :: 0 <= i < |items| ==> items[i].0 == dates[i]
    ensures |On(items, d)| == Occurrences(dates, d)
    ensures CountDated(items) == NonNull(dates)
    decreases |items|
  {
    if items != [] {
      var n := |items| - 1;
      KeysCount(items[..n], dates[..n], d);
    }
  }

  lemma {:induction false} SumCountsIsTotalSize<V>(gs: seq<Group<V>>)
    ensures SumCounts(CountPoints(gs)) == TotalSize(gs)
    decreases |gs|
  {
    if gs != [] {
      assert CountPoints(gs)[1..] == CountPoints(gs[1..]);
      SumCountsIsTotalSize(gs[1..]);
    }
  }

  /**
   * For every kind but GST the chart has one point per distinct resolved
   * date, in ascending date order; each count is the number of rows with
   * that date and at least 1, and the counts add up to the number of rows
   * whose date is not NaT.
   */
  lemma CountKindsReport(kind: string, columns: seq<string>, rows: seq<Row>, toDate: Value -> Option<Date>)
    requires kind != "GST"
    ensures var r := ExpectedReport(kind, columns, rows, toDate);
      && r.raised == None && r.notices == DateNotices(ResolveDateField(kind, columns))
      && r.chart.Some? && r.chart.value.series.Counts?
    ensures var dates := ResolvedDates(kind, columns, rows, toDate);
      var pts := ExpectedReport(kind, columns, rows, toDate).chart.value.series.counts;
      && (forall i, j :: 0 <= i < j < |pts| ==> Before(pts[i].0, pts[j].0))
      && (forall i :: 0 <= i < |pts| ==> pts[i].1 == Occurrences(dates, pts[i].0) && pts[i].1 >= 1)
      && (forall d :: Occurrences(dates, d) > 0 ==> exists i :: 0 <= i < |pts| && pts[i].0 == d)
      && SumCounts(pts) == NonNull(dates)
  {
    var dates := ResolvedDates(kind, columns, rows, toDate);
    var items := DateItems(WithDates(rows, dates));
    var gs := GroupByDate(items);
    var pts := CountPoints(gs);
    assert ExpectedReport(kind, columns, rows, toDate).chart.value.series.counts == pts;
    GroupByDateCorrect(items);
    forall d ensures |On(items, d)| == Occurrences(dates, d) {
      KeysCount(items, dates, d);
    }
    KeysCount(items, dates, Date(0, 0, 0));
    SumCountsIsTotalSize(gs);
    forall d | Occurrences(dates, d) > 0 ensures exists i :: 0 <= i < |pts| && pts[i].0 == d {
      assert On(items, d) != [];
      var i :| 0 <= i < |gs| && gs[i].date == d;
      assert pts[i].0 == d;
    }
  }

  /** The Kp readings on `d`, in reading order. */
  function KpOn(rows: seq<Row>, toDate: Value -> Option<Date>, d: Date): seq<Option<real>> {
    On(ReadingItems(Explode(rows), toDate), d)
  }

  /** One mean per distinct date, ascending, each the mean of that date's values and within their range. */
  lemma MeanPointsCorrect(items: seq<(Option<Date>, Option<real>)>)
    ensures var pts := MeanPoints(GroupByDate(items));
      && (forall i, j :: 0 <= i < j < |pts| ==> Before(pts[i].0, pts[j].0))
      && (forall i :: 0 <= i < |pts| ==> On(items, pts[i].0) != [] && pts[i].1 == Mean(On(items, pts[i].0)))
      && (forall i :: 0 <= i < |pts| && pts[i].1.Some? ==>
            var kp := Present(On(items, pts[i].0));
            kp != [] && Min(kp) <= pts[i].1.value <= Max(kp))
      && (forall d :: On(items, d) != [] ==> exists i :: 0 <= i < |pts| && pts[i].0 == d)
  {
    var gs := GroupByDate(items);
    var pts := MeanPoints(gs);
    GroupByDateCorrect(items);
    forall i | 0 <= i < |pts| && pts[i].1.Some?
      ensures var kp := Present(On(items, pts[i].0)); kp != [] && Min(kp) <= pts[i].1.value <= Max(kp)
    {
      MeanBounded(gs[i].members);
    }
    forall d | On(items, d) != [] ensures exists i :: 0 <= i < |pts| && pts[i].0 == d {
      var i :| 0 <= i < |gs| && gs[i].date == d;
      assert pts[i].0 == d;
    }
  }

  lemma GstChartFromReadings(columns: seq<string>, rows: seq<Row>, toDate: Value -> Option<Date>)
    requires KP_COLUMN in columns
    requires HasColumn(Explode(rows), OBSERVED_TIME) && HasColumn(Explode(rows), KP_INDEX)
    ensures ExpectedReport("GST", columns, rows, toDate)
         == Report(DateNotices(ResolveDateField("GST", columns)),
                   Some(Chart(Line, Some("Average Kp Index"), KpMeans(MeanPoints(GroupByDate(ReadingItems(Explode(rows), toDate)))))),
                   None)
  {
    var dates := ResolvedDates("GST", columns, rows, toDate);
    DatesKeepReadings(rows, dates);
    ExpectedGstReport(columns, rows, toDate);
    GstReportChart(DateNotices(ResolveDateField("GST", columns)), WithColumn(columns, "date"), WithDates(rows, dates), toDate);
  }

  /** Adding the `date` column leaves the Kp readings as they were. */
  lemma DatesKeepReadings(rows: seq<Row>, dates: seq<Option<Date>>)
    requires |dates| == |rows|
    ensures Explode(WithDates(rows, dates)) == Explode(rows)
  {
    ExplodeReadsOnlyKpColumn(WithDates(rows, dates), rows);
  }

  lemma ExpectedGstReport(columns: seq<string>, rows: seq<Row>, toDate: Value -> Option<Date>)
    ensures ExpectedReport("GST", columns, rows, toDate)
         == GstReport(DateNotices(ResolveDateField("GST", columns)), WithColumn(columns, "date"),
                      WithDates(rows, ResolvedDates("GST", columns, rows, toDate)), toDate)
  {
  }

  lemma GstReportChart(notices: seq<Notice>, columns: seq<string>, dated: seq<Row>, toDate: Value -> Option<Date>)
    requires KP_COLUMN in columns
    requires HasColumn(Explode(dated), OBSERVED_TIME) && HasColumn(Explode(dated), KP_INDEX)
    ensures GstReport(notices, columns, dated, toDate)
         == Report(notices, Some(Chart(Line, Some("Average Kp Index"), KpMeans(MeanPoints(GroupByDate(ReadingItems(Explode(dated), toDate)))))), None)
  {
    GstChartLabel();
  }

  lemma GstChartLabel()
    ensures ChartStyleFor("GST") == Line && ShownYLabel("GST") == Some("Average Kp Index")
  {
  }

  /**
   * GST with Kp readings: a line chart of one point per distinct
   * `observedTime` date, ascending; each value is the mean of the `kpIndex`
   * readings observed that day and lies between their least and greatest.
   */
  lemma GstMeansReport(columns: seq<string>, rows: seq<Row>, toDate: Value -> Option<Date>)
    requires KP_COLUMN in columns
    requires HasColumn(Explode(rows), OBSERVED_TIME) && HasColumn(Explode(rows), KP_INDEX)
    ensures var r := ExpectedReport("GST", columns, rows, toDate);
      && r.raised == None && r.notices == DateNotices(ResolveDateField("GST", columns))
      && r.chart.Some? && r.chart.value.style == Line && r.chart.value.yLabel == Some("Average Kp Index")
      && r.chart.value.series.KpMeans?
    ensures var pts := ExpectedReport("GST", columns, rows, toDate).chart.value.series.means;
      && (forall i, j :: 0 <= i < j < |pts| ==> Before(pts[i].0, pts[j].0))
      && (forall i :: 0 <= i < |pts| ==> KpOn(rows, toDate, pts[i].0) != [] && pts[i].1 == Mean(KpOn(rows, toDate, pts[i].0)))
      && (forall i :: 0 <= i < |pts| && pts[i].1.Some? ==>
            var kp := Present(KpOn(rows, toDate, pts[i].0));
            kp != [] && Min(kp) <= pts[i].1.value <= Max(kp))
      && (forall d :: KpOn(rows, toDate, d) != [] ==> exists i :: 0 <= i < |pts| && pts[i].0 == d)
  {
    GstChartFromReadings(columns, rows, toDate);
    MeanPointsCorrect(ReadingItems(Explode(rows), toDate));
  }

  /** GST without an `allKpIndex` column shows the resolution messages, then the error, and no chart. */
  lemma GstWithoutKpColumn(columns: seq<string>, rows: seq<Row>, toDate: Value -> Option<Date>)
    requires KP_COLUMN !in columns
    ensures var r := ExpectedReport("GST", columns, rows, toDate);
      && r.chart == None && r.raised == None
      && r.notices == DateNotices(ResolveDateField("GST", columns)) + [Error("No 'allKpIndex' data available to plot.")]
  {
    assert KP_COLUMN != "date";
  }

  /** GST readings lacking `observedTime` or `kpIndex` altogether make pandas raise, and nothing is plotted. */
  lemma GstWithoutReadingFields(columns: seq<string>, rows: seq<Row>, toDate: Value -> Option<Date>)
    requires KP_COLUMN in columns
    requires !HasColumn(Explode(rows), OBSERVED_TIME) || !HasColumn(Explode(rows), KP_INDEX)
    ensures var r := ExpectedReport("GST", columns, rows, toDate);
      && r.chart == None
      && r.raised == Some(if !HasColumn(Explode(rows), OBSERVED_TIME) then OBSERVED_TIME_KEY_ERROR else KP_INDEX_KEY_ERROR)
  {
    DatesKeepReadings(rows, ResolvedDates("GST", columns, rows, toDate));
    ExpectedGstReport(columns, rows, toDate);
  }

  /**
   * For a fixed column list, the cells a GST table holds besides `allKpIndex`,
   * `startTime` included, change nothing that is shown. The column names still
   * decide the date-resolution messages.
   */
  lemma GstIgnoresTopLevelFields(columns: seq<string>, rows: seq<Row>, others: seq<Row>, toDate: Value -> Option<Date>)
    requires |rows| == |others|
    requires forall i :: 0 <= i < |rows| ==> CellOf(rows[i], KP_COLUMN) == CellOf(others[i], KP_COLUMN)
    ensures ExpectedReport("GST", columns, rows, toDate) == ExpectedReport("GST", columns, others, toDate)
  {
    var dated := WithDates(rows, ResolvedDates("GST", columns, rows, toDate));
    var dated' := WithDates(others, ResolvedDates("GST", columns, others, toDate));
    DatesKeepReadings(rows, ResolvedDates("GST", columns, rows, toDate));
    DatesKeepReadings(others, ResolvedDates("GST", columns, others, toDate));
    ExplodeReadsOnlyKpColumn(rows, others);
    ExpectedGstReport(columns, rows, toDate);
    ExpectedGstReport(columns, others, toDate);
    GstReportReadsReadings(DateNotices(ResolveDateField("GST", columns)), WithColumn(columns, "date"), dated, dated', toDate);
  }

  lemma GstReportReadsReadings(notices: seq<Notice>, columns: seq<string>, dated: seq<Row>, dated': seq<Row>, toDate: Value -> Option<Date>)
    requires Explode(dated) == Explode(dated')
    ensures GstReport(notices, columns, dated, toDate) == GstReport(notices, columns, dated', toDate)
  {
  }

  /** A line chart for CME and GST, a bar chart otherwise; the label comes from the table except on the notifications chart. */
  lemma ChartChoice(kind: string, columns: seq<string>, rows: seq<Row>, toDate: Value -> Option<Date>)
    ensures var r := ExpectedReport(kind, columns, rows, toDate);
      r.chart.Some? ==>
        && (r.chart.value.style == Line <==> kind == "CME" || kind == "GST")
        && r.chart.value.yLabel == (if kind == "notifications" then None else Some(YLabel(kind)))
        && (r.chart.value.series.KpMeans? <==> kind == "GST")
  {
    var notices := DateNotices(ResolveDateField(kind, columns));
    var dated := WithDates(rows, ResolvedDates(kind, columns, rows, toDate));
    if kind == "GST" {
      GstChartShape(notices, WithColumn(columns, "date"), dated, toDate);
    } else {
      CountChartShape(kind, notices, dated);
    }
  }

  lemma GstChartShape(notices: seq<Notice>, columns: seq<string>, dated: seq<Row>, toDate: Value -> Option<Date>)
    ensures var r := GstReport(notices, columns, dated, toDate);
      r.chart.Some? ==>
        r.chart.value.style == ChartStyleFor("GST") && r.chart.value.yLabel == ShownYLabel("GST") && r.chart.value.series.KpMeans?
  {
  }

  lemma CountChartShape(kind: string, notices: seq<Notice>, dated: seq<Row>)
    ensures var r := CountReport(kind, notices, dated);
      r.chart.Some? && r.chart.value.style == ChartStyleFor(kind) && r.chart.value.yLabel == ShownYLabel(kind)
      && r.chart.value.series.Counts?
  {
  }

  /** No records: no points, and nothing raised, for every kind but GST. */
  lemma EmptyTableGivesNoPoints(kind: string, columns: seq<string>, toDate: Value -> Option<Date>)
    requires kind != "GST"
    ensures var r := ExpectedReport(kind, columns, [], toDate);
      r.raised == None && r.chart.Some? && r.chart.value.series == Counts([])
  {
  }

  /** No usable date column: an error is shown and the count chart is empty. */
  lemma NoDateFieldGivesNoPoints(kind: string, columns: seq<string>, rows: seq<Row>, toDate: Value -> Option<Date>)
    requires kind != "GST"
    requires forall j :: 0 <= j < |columns| ==> !IsDateLike(columns[j])
    requires !MappedFieldPresent(kind, columns)
    ensures var r := ExpectedReport(kind, columns, rows, toDate);
      && r.notices == [Error("No suitable date field found in the data.")]
      && r.chart.Some? && r.chart.value.series == Counts([])
  {
    CountKindsReport(kind, columns, rows, toDate);
    var dates := ResolvedDates(kind, columns, rows, toDate);
    var pts := ExpectedReport(kind, columns, rows, toDate).chart.value.series.counts;
    if pts != [] {
      NoOccurrences(dates, pts[0].0);
      assert false;
    }
  }

  lemma {:induction false} NoOccurrences(dates: seq<Option<Date>>, d: Date)
    requires forall i :: 0 <= i < |dates| ==> dates[i] == None
    ensures Occurrences(dates, d) == 0
    decreases |dates|
  {
    if dates != [] {
      NoOccurrences(dates[..|dates| - 1], d);
    }
  }

  lemma GroupTwoDays<V>(a: V, b: V, c: V, d1: Date, d2: Date)
    requires Before(d1, d2)
    ensures GroupByDate([(Some(d1), a), (Some(d1), b), (Some(d2), c)]) == [Group(d1, [a, b]), Group(d2, [c])]
  {
    var items := [(Some(d1), a), (Some(d1), b), (Some(d2), c)];
    var first := [Group(d1, [a])];
    assert GroupByDate(items[..1]) == first by {
      assert items[..1][..0] == [];
      assert GroupByDate(items[..1][..0]) == [];
    }
    var second := Insert(first, d1, b);
    assert second == [Group(d1, [a] + [b])];
    assert [a] + [b] == [a, b];
    assert GroupByDate(items[..2]) == second by {
      assert items[..2][..1] == items[..1];
    }
    assert Insert(second, d2, c) == [Group(d1, [a, b])] + Insert([], d2, c);
    assert items[..3][..2] == items[..2] && items[..3] == items;
  }

  /** Three CME records: two start on 2024-01-01, one on 2024-01-02. */
  const CME_ROWS: seq<Row> := [
    map["startTime" := Str("2024-01-01T00:00Z")],
    map["startTime" := Str("2024-01-01T12:00Z")],
    map["startTime" := Str("2024-01-02T00:00Z")]
  ]

  lemma CmeLookups()
    ensures ResolveDateField("CME", ["startTime"]) == Mapped("startTime")
    ensures ChartStyleFor("CME") == Line && ShownYLabel("CME") == Some("Number of CMEs")
  {
    MappedWhenPresent("CME", ["startTime"]);
  }

  lemma CmeDates(toDate: Value -> Option<Date>)
    requires toDate(Str("2024-01-01T00:00Z")) == Some(Date(2024, 1, 1))
    requires toDate(Str("2024-01-01T12:00Z")) == Some(Date(2024, 1, 1))
    requires toDate(Str("2024-01-02T00:00Z")) == Some(Date(2024, 1, 2))
    ensures ResolvedDates("CME", ["startTime"], CME_ROWS, toDate) == [Some(Date(2024, 1, 1)), Some(Date(2024, 1, 1)), Some(Date(2024, 1, 2))]
  {
    CmeLookups();
  }

  lemma CountTwoDays(dated: seq<Row>, d1: Date, d2: Date)
    requires |dated| == 3 && d1 != d2 && Before(d1, d2)
    requires DateOf(CellOf(dated[0], "date")) == Some(d1) && DateOf(CellOf(dated[1], "date")) == Some(d1)
    requires DateOf(CellOf(dated[2], "date")) == Some(d2)
    ensures CountPoints(GroupByDate(DateItems(dated))) == [(d1, 2), (d2, 1)]
  {
    var items := DateItems(dated);
    assert items == [(Some(d1), dated[0]), (Some(d1), dated[1]), (Some(d2), dated[2])];
    GroupTwoDays(dated[0], dated[1], dated[2], d1, d2);
    var gs := [Group(d1, [dated[0], dated[1]]), Group(d2, [dated[2]])];
    assert CountPoints(gs) == [(d1, 2), (d2, 1)];
  }

  /** Two CMEs on 2024-01-01 and one on 2024-01-02 give the points (2024-01-01, 2) and (2024-01-02, 1). */
  lemma CmeScenario(toDate: Value -> Option<Date>)
    requires toDate(Str("2024-01-01T00:00Z")) == Some(Date(2024, 1, 1))
    requires toDate(Str("2024-01-01T12:00Z")) == Some(Date(2024, 1, 1))
    requires toDate(Str("2024-01-02T00:00Z")) == Some(Date(2024, 1, 2))
    ensures var r := ExpectedReport("CME", ["startTime"], CME_ROWS, toDate);
      r.notices == [] && r.chart == Some(Chart(Line, Some("Number of CMEs"), Counts([(Date(2024, 1, 1), 2), (Date(2024, 1, 2), 1)])))
  {
    CmeLookups();
    CmeDates(toDate);
    var dates := ResolvedDates("CME", ["startTime"], CME_ROWS, toDate);
    var dated := WithDates(CME_ROWS, dates);
    assert ExpectedReport("CME", ["startTime"], CME_ROWS, toDate) == CountReport("CME", [], dated);
    CountTwoDays(dated, Date(2024, 1, 1), Date(2024, 1, 2));
  }

  lemma GroupOneDay<V>(a: V, b: V, d: Date)
    ensures GroupByDate([(Some(d), a), (Some(d), b)]) == [Group(d, [a, b])]
  {
    var items := [(Some(d), a), (Some(d), b)];
    assert GroupByDate(items[..1]) == [Group(d, [a])] by {
      assert items[..1][..0] == [];
    }
    assert [a] + [b] == [a, b];
  }

  lemma KpFourAndSixMeanFive()
    ensures Mean([Some(4.0), Some(6.0)]) == Some(5.0)
  {
    assert [Some(4.0), Some(6.0)][..1] == [Some(4.0)];
    assert Present([Some(4.0)]) == [4.0];
    assert Present([Some(4.0), Some(6.0)]) == [4.0, 6.0];
    assert Sum([4.0, 6.0]) == 10.0;
  }

  /** The two Kp readings of the storm scenario below. */
  const STORM_READINGS: seq<Row> := [
    map["observedTime" := Str("2024-01-01T00:00Z"), "kpIndex" := Num(4.0)],
    map["observedTime" := Str("2024-01-01T06:00Z"), "kpIndex" := Num(6.0)]
  ]

  /** The storm record: its start time and its Kp readings. */
  const STORM: Row := map["startTime" := Str("2024-01-01T00:00Z"), "allKpIndex" := Records(STORM_READINGS)]

  lemma StormReadingsExplode()
    ensures Explode([STORM]) == STORM_READINGS
    ensures HasColumn(STORM_READINGS, OBSERVED_TIME) && HasColumn(STORM_READINGS, KP_INDEX)
  {
    OneRecord(STORM);
    assert OBSERVED_TIME in STORM_READINGS[0] && KP_INDEX in STORM_READINGS[0];
  }

  /** Both storm readings fall on 2024-01-01, so they form one group whose mean is 5. */
  lemma StormMeans(toDate: Value -> Option<Date>)
    requires toDate(Str("2024-01-01T00:00Z")) == Some(Date(2024, 1, 1))
    requires toDate(Str("2024-01-01T06:00Z")) == Some(Date(2024, 1, 1))
    ensures MeanPoints(GroupByDate(ReadingItems(STORM_READINGS, toDate))) == [(Date(2024, 1, 1), Some(5.0))]
  {
    var d := Date(2024, 1, 1);
    assert ReadingItems(STORM_READINGS, toDate) == [(Some(d), Some(4.0)), (Some(d), Some(6.0))];
    GroupOneDay(Some(4.0), Some(6.0), d);
    KpFourAndSixMeanFive();
    assert MeanPoints([Group(d, [Some(4.0), Some(6.0)])]) == [(d, Some(5.0))];
  }

  lemma StormChart(toDate: Value -> Option<Date>)
    ensures ExpectedReport("GST", ["startTime", "allKpIndex"], [STORM], toDate).chart
         == Some(Chart(Line, Some("Average Kp Index"), KpMeans(MeanPoints(GroupByDate(ReadingItems(STORM_READINGS, toDate))))))
  {
    var columns := ["startTime", "allKpIndex"];
    StormReadingsExplode();
    assert KP_COLUMN in columns by {
      assert columns[1] == KP_COLUMN;
    }
    GstChartFromReadings(columns, [STORM], toDate);
  }

  /** One storm whose two readings on 2024-01-01 have Kp 4 and 6 plots the single point (2024-01-01, 5). */
  lemma GstScenario(toDate: Value -> Option<Date>)
    requires toDate(Str("2024-01-01T00:00Z")) == Some(Date(2024, 1, 1))
    requires toDate(Str("2024-01-01T06:00Z")) == Some(Date(2024, 1, 1))
    ensures ExpectedReport("GST", ["startTime", "allKpIndex"], [STORM], toDate).chart
         == Some(Chart(Line, Some("Average Kp Index"), KpMeans([(Date(2024, 1, 1), Some(5.0))])))
  {
    StormChart(toDate);
    StormMeans(toDate);
  }
}
