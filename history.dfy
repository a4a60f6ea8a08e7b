/** What `Dashboard.load_data` derives from the upload history: KPI texts from the
    latest summary, up to five table rows newest first, the latest type
    distribution for the two distribution charts, and a five-record trend in
    chronological order. `Refreshed` is the whole refresh as one function from the
    previous dashboard view and the history to the next view. */
module History {
  import opened Python
  import opened Formatting
  import opened Charts

  /** The `summary` object of an upload record. `typeDistribution` is an ordered
      dictionary (its pairs in insertion order), or None when the key is absent. */
  datatype Summary = Summary(
    totalEquipment: PyValue,
    avgFlowrate: PyValue,
    avgPressure: PyValue,
    avgTemperature: PyValue,
    typeDistribution: Option<seq<(string, PyValue)>>)

  datatype UploadRecord = UploadRecord(filename: string, uploadedAt: string, summary: Summary)

  /** How many records the table and the trend take from the head of the history. */
  const WINDOW: nat := 5

  const DISTRIBUTION_TITLE: string := "Equipment Distribution"
  const TREND_TITLE: string := "Trends"

  /** `data[:5]`. */
  function Window(data: seq<UploadRecord>): (w: seq<UploadRecord>)
    ensures |w| == if |data| < WINDOW then |data| else WINDOW
    ensures forall i :: 0 <= i < |w| ==> w[i] == data[i]
  {
    if |data| < WINDOW then data else data[..WINDOW]
  }

  // ---------------------------------------------------------------- KPIs

  /** The four KPI texts, in the order total, flow, pressure, temperature. */
  function Kpis(rt: Runtime, s: Summary): (r: seq<string>)
    ensures |r| == 4
    ensures s.totalEquipment.PyNone? ==> r[0] == PLACEHOLDER
    ensures s.avgFlowrate.PyNone? ==> r[1] == PLACEHOLDER
    ensures s.avgPressure.PyNone? ==> r[2] == PLACEHOLDER
    ensures s.avgTemperature.PyNone? ==> r[3] == PLACEHOLDER
  {
    [Safe(rt, s.totalEquipment), Safe(rt, s.avgFlowrate), Safe(rt, s.avgPressure), Safe(rt, s.avgTemperature)]
  }

  // ---------------------------------------------------------------- table

  /** A table cell: empty, or an item holding text. */
  datatype Cell = Empty | Item(text: string)

  /** One history row: filename, formatted upload time, and `str` (not `safe`) of
      the equipment total and the average flow rate. */
  function TableRow(rt: Runtime, rec: UploadRecord): (r: seq<Cell>)
    ensures |r| == 4 && forall c :: 0 <= c < 4 ==> r[c].Item?
    ensures r[0] == Item(rec.filename)
    ensures rec.summary.totalEquipment.PyNone? ==> r[2] == Item("None")
    ensures rec.summary.avgFlowrate.PyNone? ==> r[3] == Item("None")
  {
    [Item(rec.filename), Item(FormatDatetime(rt, rec.uploadedAt)),
     Item(Str(rt, rec.summary.totalEquipment)), Item(Str(rt, rec.summary.avgFlowrate))]
  }

  /** The rows of the history table: the window, newest first. */
  function TableRows(rt: Runtime, data: seq<UploadRecord>): (rows: seq<seq<Cell>>)
    ensures |rows| == |Window(data)|
    ensures forall r :: 0 <= r < |rows| ==> rows[r] == TableRow(rt, data[r])
  {
    var w := Window(data);
    seq(|w|, r requires 0 <= r < |w| => TableRow(rt, w[r]))
  }

  // ---------------------------------------------------------------- distribution

  /** `latest.get("type_distribution", {})`. */
  function Distribution(s: Summary): (r: seq<(string, PyValue)>)
    ensures s.typeDistribution.None? ==> r == []
    ensures s.typeDistribution.Some? ==> r == s.typeDistribution.value
  {
    match s.typeDistribution
    case None => []
    case Some(d) => d
  }

  /** `list(dist.keys())`. */
  function Keys(d: seq<(string, PyValue)>): (r: seq<string>)
    ensures |r| == |d|
    ensures forall i :: 0 <= i < |d| ==> r[i] == d[i].0
  {
    seq(|d|, i requires 0 <= i < |d| => d[i].0)
  }

  /** `list(dist.values())`. */
  function Values(d: seq<(string, PyValue)>): (r: seq<PyValue>)
    ensures |r| == |d|
    ensures forall i :: 0 <= i < |d| ==> r[i] == d[i].1
  {
    seq(|d|, i requires 0 <= i < |d| => d[i].1)
  }

  // ---------------------------------------------------------------- trend

  /** `list(reversed(s))`. */
  function Reversed<T>(s: seq<T>): (r: seq<T>)
    ensures |r| == |s|
  {
    if s == [] then [] else [s[|s| - 1]] + Reversed(s[..|s| - 1])
  }

  lemma {:induction false} ReversedAt<T>(s: seq<T>, i: nat)
    requires i < |s|
    ensures Reversed(s)[i] == s[|s| - 1 - i]
  {
    if i > 0 {
      ReversedAt(s[..|s| - 1], i - 1);
    }
  }

  /** Every position of the reversal at once. */
  lemma ReversedAll<T>(s: seq<T>)
    ensures forall i :: 0 <= i < |s| ==> Reversed(s)[i] == s[|s| - 1 - i]
  {
    forall i | 0 <= i < |s| {
      ReversedAt(s, i);
    }
  }

  /** The three trend metrics, in the order the series dictionary lists them. */
  datatype Metric = Flow | Pressure | Temp

  function MetricName(m: Metric): string {
    match m
    case Flow => "Flow"
    case Pressure => "Pressure"
    case Temp => "Temp"
  }

  function MetricIndex(m: Metric): nat {
    match m
    case Flow => 0
    case Pressure => 1
    case Temp => 2
  }

  function Reading(s: Summary, m: Metric): PyValue {
    match m
    case Flow => s.avgFlowrate
    case Pressure => s.avgPressure
    case Temp => s.avgTemperature
  }

  /** `[d["summary"][key] for d in records]`. */
  function Column(records: seq<UploadRecord>, m: Metric): (r: seq<PyValue>)
    ensures |r| == |records|
    ensures forall i :: 0 <= i < |r| ==> r[i] == Reading(records[i].summary, m)
  {
    seq(|records|, i requires 0 <= i < |records| => Reading(records[i].summary, m))
  }

  /** `[f"#{i+1}" for i in range(n)]`. */
  function TrendLabels(n: nat): (r: seq<string>)
    ensures |r| == n
  {
    seq(n, i requires 0 <= i < n => "#" + IntToDecimal(i + 1))
  }

  /** The x-labels are "#1".."#n": label i reads back as the number i + 1, so no
      two labels coincide. */
  lemma TrendLabelsNumbered(n: nat, i: nat, j: nat)
    requires i < n && j < n
    ensures TrendLabels(n)[i][0] == '#'
    ensures IsIntLiteral(TrendLabels(n)[i][1..]) && ParseInt(TrendLabels(n)[i][1..]) == i + 1
    ensures TrendLabels(n)[i] == TrendLabels(n)[j] <==> i == j
  {
    var li := TrendLabels(n)[i];
    assert li[1..] == IntToDecimal(i + 1);
    IntDecimalRoundTrip(i + 1);
    if i != j && li == TrendLabels(n)[j] {
      assert TrendLabels(n)[j][1..] == IntToDecimal(j + 1);
      IntToDecimalInjective(i + 1, j + 1);
    }
  }

  /** The window reversed into chronological order, oldest first. */
  function Chronological(data: seq<UploadRecord>): (r: seq<UploadRecord>)
    ensures |r| == |Window(data)|
    ensures forall i :: 0 <= i < |r| ==> r[i] == data[|r| - 1 - i]
  {
    var w := Window(data);
    ReversedAll(w);
    Reversed(w)
  }

  /** The `series` dictionary handed to the line chart. */
  function TrendSeries(data: seq<UploadRecord>): (series: seq<(string, seq<PyValue>)>)
    ensures |series| == 3
    ensures Aligned(TrendLabels(|Window(data)|), series)
  {
    var ordered := Chronological(data);
    [(MetricName(Flow), Column(ordered, Flow)),
     (MetricName(Pressure), Column(ordered, Pressure)),
     (MetricName(Temp), Column(ordered, Temp))]
  }

  /** Point i of every trend series comes from record n-1-i of the history: the
      trend runs oldest first, ending with the latest upload. */
  lemma TrendPoint(data: seq<UploadRecord>, m: Metric, i: nat)
    requires i < |Window(data)|
    ensures TrendSeries(data)[MetricIndex(m)].0 == MetricName(m)
    ensures TrendSeries(data)[MetricIndex(m)].1[i] == Reading(data[|Window(data)| - 1 - i].summary, m)
  {
    ReversedAt(Window(data), i);
  }

  // ---------------------------------------------------------------- the refresh

  /** Everything the dashboard shows that `load_data` writes: the four KPI texts,
      the table rows, and the scenes of the bar, pie and line canvases. */
  datatype DashboardView = DashboardView(kpis: seq<string>, rows: seq<seq<Cell>>,
                                         bar: Scene, pie: Scene, line: Scene)

  /** The view before any history has been loaded. */
  const InitialView: DashboardView :=
    DashboardView([PLACEHOLDER, PLACEHOLDER, PLACEHOLDER, PLACEHOLDER], [], InitialScene, InitialScene, InitialScene)

  /** The view `load_data` leaves behind, given the view before and the history. */
  function Refreshed(rt: Runtime, before: DashboardView, data: seq<UploadRecord>): (r: DashboardView)
    ensures data == [] ==> r == before
    ensures data != [] ==>
      |r.kpis| == 4 && |r.rows| == |Window(data)| && r.bar.marks == r.pie.marks &&
      r.bar.title == DISTRIBUTION_TITLE && r.line.title == TREND_TITLE && |r.line.marks| == 3
    ensures Themed(before.bar) && Themed(before.pie) && Themed(before.line) ==>
      Themed(r.bar) && Themed(r.pie) && Themed(r.line)
  {
    if data == [] then before
    else
      var latest := data[0].summary;
      var dist := Distribution(latest);
      var n := |Window(data)|;
      DashboardView(
        Kpis(rt, latest),
        TableRows(rt, data),
        AfterBar(before.bar, Keys(dist), Values(dist), DISTRIBUTION_TITLE),
        AfterBar(before.pie, Keys(dist), Values(dist), DISTRIBUTION_TITLE),
        AfterLines(before.line, TrendLabels(n), TrendSeries(data), TREND_TITLE))
  }

  /** An empty history changes nothing on screen. */
  lemma EmptyHistoryKeepsView(rt: Runtime, before: DashboardView)
    ensures Refreshed(rt, before, []) == before
  {
  }

  /** The KPI texts are `safe` of the latest summary's four scalars and nothing
      else: records after the first have no influence on them. */
  lemma KpisFromLatestOnly(rt: Runtime, before: DashboardView, data: seq<UploadRecord>, other: seq<UploadRecord>)
    requires data != [] && other != [] && data[0] == other[0]
    ensures Refreshed(rt, before, data).kpis == Refreshed(rt, before, other).kpis
    ensures Refreshed(rt, before, data).kpis ==
      [Safe(rt, data[0].summary.totalEquipment), Safe(rt, data[0].summary.avgFlowrate),
       Safe(rt, data[0].summary.avgPressure), Safe(rt, data[0].summary.avgTemperature)]
  {
  }

  /** The table holds min(5, len(data)) rows and row r shows record r: newest first. */
  lemma TableNewestFirst(rt: Runtime, before: DashboardView, data: seq<UploadRecord>, r: nat)
    requires data != [] && r < |Window(data)|
    ensures |Refreshed(rt, before, data).rows| == if |data| < 5 then |data| else 5
    ensures Refreshed(rt, before, data).rows[r] == TableRow(rt, data[r])
  {
  }

  /** Both distribution canvases show the same bars: one per key of the latest
      distribution, the bar for key i showing value i in colour i mod 7; an empty
      or absent distribution leaves them themed and titled with no bars. */
  lemma DistributionParallel(rt: Runtime, before: DashboardView, data: seq<UploadRecord>)
    requires data != []
    ensures Refreshed(rt, before, data).bar.marks == Refreshed(rt, before, data).pie.marks
    ensures Refreshed(rt, before, data).bar.title == DISTRIBUTION_TITLE
    ensures Refreshed(rt, before, data).pie.title == DISTRIBUTION_TITLE
    ensures |Refreshed(rt, before, data).bar.marks| == |Distribution(data[0].summary)|
    ensures forall i :: 0 <= i < |Distribution(data[0].summary)| ==>
      var d := Distribution(data[0].summary);
      Refreshed(rt, before, data).bar.marks[i] == BarMark(d[i].0, d[i].1, COLORS[i % 7])
  {
  }

  /** The line drawn for metric m on any scene: series m, named after the metric,
      in palette colour m, over the trend labels. */
  lemma TrendLine(s: Scene, data: seq<UploadRecord>, m: Metric)
    ensures var k, n := MetricIndex(m), |Window(data)|;
      var line := AfterLines(s, TrendLabels(n), TrendSeries(data), TREND_TITLE);
      |line.marks| == 3 &&
      line.marks[k] == LineMark(MetricName(m), TrendLabels(n), TrendSeries(data)[k].1, COLORS[k])
  {
    var k := MetricIndex(m);
    assert k % 7 == k by {
      assert k < 3;
    }
  }

  /** The trend chart draws Flow, Pressure and Temp (colours 0, 1, 2) over the
      labels "#1".."#n"; point i of each line is record n-1-i, so the first point is
      the oldest record of the window and the last is the latest upload. */
  lemma TrendOldestFirst(rt: Runtime, before: DashboardView, data: seq<UploadRecord>, m: Metric, i: nat)
    requires data != [] && i < |Window(data)|
    ensures var line := Refreshed(rt, before, data).line;
      |line.marks| == 3 &&
      line.marks[MetricIndex(m)].name == MetricName(m) &&
      line.marks[MetricIndex(m)].color == COLORS[MetricIndex(m)] &&
      line.marks[MetricIndex(m)].xs == TrendLabels(|Window(data)|) &&
      line.marks[MetricIndex(m)].ys[i] == Reading(data[|Window(data)| - 1 - i].summary, m)
  {
    var n := |Window(data)|;
    assert Refreshed(rt, before, data).line ==
      AfterLines(before.line, TrendLabels(n), TrendSeries(data), TREND_TITLE);
    TrendLine(before.line, data, m);
    TrendPoint(data, m, i);
  }

  /** The table and the trend read the window in opposite orders: the first row is
      the latest record, which is the trend's last point, and the trend's first
      point is the table's last row. */
  lemma OppositeOrders(rt: Runtime, before: DashboardView, data: seq<UploadRecord>, m: Metric)
    requires data != []
    ensures var v := Refreshed(rt, before, data); var n := |Window(data)|;
      v.rows[0] == TableRow(rt, data[0]) &&
      v.line.marks[MetricIndex(m)].ys[n - 1] == Reading(data[0].summary, m) &&
      v.rows[n - 1] == TableRow(rt, data[n - 1]) &&
      v.line.marks[MetricIndex(m)].ys[0] == Reading(data[n - 1].summary, m)
  {
    var n := |Window(data)|;
    TrendPoint(data, m, n - 1);
    TrendPoint(data, m, 0);
  }

  /** A refresh is recomputed in full: running it twice on the same history gives
      the same view as running it once. */
  lemma RefreshIdempotent(rt: Runtime, before: DashboardView, data: seq<UploadRecord>)
    ensures Refreshed(rt, Refreshed(rt, before, data), data) == Refreshed(rt, before, data)
  {
  }
}
