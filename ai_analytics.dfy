/**
 * The AI analytics page: the impact colour and badge of an insight, the
 * accuracy tier and split caption of a model row, and the two synthetic
 * series behind its charts, a capacity forecast and an anomaly trace.
 * `Math.random`, `Math.sin` and `Date.now` are parameters; the anomaly
 * trace uses the chart point and the draws of the overview's series.
 */
module AIAnalytics {
  import opened Common
  import Store
  import OverviewView
  import MetricChart

  // ---------------------------------------------------------------------
  // Capacity forecast
  // ---------------------------------------------------------------------

  /** A point of the forecast chart; `forecast` is set on the points after `now`. */
  datatype ForecastPoint = ForecastPoint(
    timestamp: int,
    value: real,
    baseline: real,
    upperBound: real,
    lowerBound: real,
    forecast: bool)

  /** `Math.max(0.9 - i * 0.1, 0.3)`: the confidence of the forecast `i` days ahead. */
  function Confidence(i: nat): (c: real)
    ensures 0.3 <= c <= 0.9
    ensures c == 0.3 <==> i >= 6
  {
    var falling := 0.9 - i as real * 0.1;
    if falling >= 0.3 then falling else 0.3
  }

  /** Confidence falls, down to its floor, the further ahead the forecast reaches. */
  lemma ConfidenceFalls(i: nat, j: nat)
    requires i <= j
    ensures Confidence(j) <= Confidence(i)
    ensures 1 <= i < j <= 6 ==> Confidence(j) < Confidence(i)
  {
  }

  /** The measured point `i` days before `now`, with its fixed band. */
  function HistoryPoint(i: nat, now: int, sin: real -> real, noise: nat -> Unit01): ForecastPoint
  {
    ForecastPoint(now - i * Store.DayMs, 60.0 + sin(i as real / 2.0) * 20.0 + noise(i) * 10.0, 65.0, 85.0, 45.0, false)
  }

  /** The predicted point `i` days after `now`: a rising trend whose band widens as the
      confidence falls. */
  function FuturePoint(i: nat, now: int, sin: real -> real): ForecastPoint
  {
    var value := 70.0 + (i * 2) as real + sin(i as real / 2.0) * 15.0;
    var c := Confidence(i);
    ForecastPoint(now + i * Store.DayMs, value, 65.0, value + 20.0 * (1.0 - c), value - 15.0 * (1.0 - c), true)
  }

  /** The `k`-th point of the forecast chart: days 7 to 0 before `now`, then days 1 to 7 after. */
  function ForecastPointAt(k: nat, now: int, sin: real -> real, noise: nat -> Unit01): ForecastPoint
    requires k < 15
  {
    if k < 8 then HistoryPoint(7 - k, now, sin, noise) else FuturePoint(k - 7, now, sin)
  }

  /** The forecast chart's data, oldest point first. */
  function ForecastSeries(now: int, sin: real -> real, noise: nat -> Unit01): (data: seq<ForecastPoint>)
    ensures |data| == 15
  {
    seq(15, k requires 0 <= k < 15 => ForecastPointAt(k, now, sin, noise))
  }

  /** `generateForecastData`: one loop counting the past days down to 0, then one counting the
      future days up to 7. */
  method GenerateForecastData(now: int, sin: real -> real, noise: nat -> Unit01) returns (data: seq<ForecastPoint>)
    ensures data == ForecastSeries(now, sin, noise)
  {
    data := [];
    var i: int := 7;
    while i >= 0
      invariant -1 <= i <= 7
      invariant |data| == 7 - i
      invariant forall k :: 0 <= k < |data| ==> data[k] == ForecastPointAt(k, now, sin, noise)
    {
      data := data + [HistoryPoint(i, now, sin, noise)];
      i := i - 1;
    }
    var j := 1;
    while j <= 7
      invariant 1 <= j <= 8
      invariant |data| == 7 + j
      invariant forall k :: 0 <= k < |data| ==> data[k] == ForecastPointAt(k, now, sin, noise)
    {
      data := data + [FuturePoint(j, now, sin)];
      j := j + 1;
    }
  }

  /** The chart runs day by day from a week before `now` to a week after, `now` itself being the
      last measured point; exactly the seven points after it are forecasts, and every point has
      the baseline 65. */
  lemma ForecastTimeline(now: int, sin: real -> real, noise: nat -> Unit01, k: nat)
    requires k < 15
    ensures ForecastSeries(now, sin, noise)[k].timestamp == now + (k - 7) * Store.DayMs
    ensures ForecastSeries(now, sin, noise)[k].forecast <==> k >= 8
    ensures ForecastSeries(now, sin, noise)[k].baseline == 65.0
  {
    assert ForecastSeries(now, sin, noise)[k] == ForecastPointAt(k, now, sin, noise);
  }

  /** Each forecast lies strictly inside its band, which reaches 20 units above and 15 below
      for every point of lost confidence; the measured points keep the fixed band [45, 85]. */
  lemma ForecastBands(now: int, sin: real -> real, noise: nat -> Unit01, k: nat)
    requires k < 15
    ensures var p := ForecastSeries(now, sin, noise)[k];
      if k >= 8 then
        p.lowerBound < p.value < p.upperBound &&
        p.upperBound - p.value == 20.0 * (1.0 - Confidence(k - 7)) &&
        p.value - p.lowerBound == 15.0 * (1.0 - Confidence(k - 7))
      else
        p.lowerBound == 45.0 && p.upperBound == 85.0
  {
    assert ForecastSeries(now, sin, noise)[k] == ForecastPointAt(k, now, sin, noise);
  }

  /** With `Math.sin` in [-1, 1], measured values lie in [40, 90) and forecasts in [57, 99]. */
  lemma ForecastValues(now: int, sin: real -> real, noise: nat -> Unit01, k: nat)
    requires forall x :: -1.0 <= sin(x) <= 1.0
    requires k < 15
    ensures k < 8 ==> 40.0 <= ForecastSeries(now, sin, noise)[k].value < 90.0
    ensures k >= 8 ==> 57.0 <= ForecastSeries(now, sin, noise)[k].value <= 99.0
  {
    assert ForecastSeries(now, sin, noise)[k] == ForecastPointAt(k, now, sin, noise);
    var i: nat := if k < 8 then 7 - k else k - 7;
    var s := sin(i as real / 2.0);
    assert -20.0 <= s * 20.0 <= 20.0 && -15.0 <= s * 15.0 <= 15.0;
  }

  // ---------------------------------------------------------------------
  // Anomaly trace
  // ---------------------------------------------------------------------

  /** The hourly point `i` hours before `now`: an 8% roll turns it into a spike 30 to 50 units
      above its base value. */
  function AnomalyPointAt(i: nat, now: int, sin: real -> real, draws: OverviewView.SeriesDraws): OverviewView.SeriesPoint
  {
    var base := 40.0 + sin(i as real / 6.0) * 15.0 + draws.noise(i) * 8.0;
    var isAnomaly := draws.roll(i) < 0.08;
    OverviewView.SeriesPoint(now - i * OverviewView.HourMs,
      if isAnomaly then base + 30.0 + draws.spike(i) * 20.0 else base,
      45.0, 65.0, 25.0, isAnomaly)
  }

  /** The anomaly chart's data, oldest point first: offsets 48 down to 0 hours. */
  function AnomalySeries(now: int, sin: real -> real, draws: OverviewView.SeriesDraws): (data: seq<OverviewView.SeriesPoint>)
    ensures |data| == 49
  {
    seq(49, k requires 0 <= k < 49 => AnomalyPointAt(48 - k, now, sin, draws))
  }

  /** `generateAnomalyData`: counts `i` down from 48 to 0, pushing one point per hour. */
  method GenerateAnomalyData(now: int, sin: real -> real, draws: OverviewView.SeriesDraws)
    returns (data: seq<OverviewView.SeriesPoint>)
    ensures data == AnomalySeries(now, sin, draws)
  {
    data := [];
    var i: int := 48;
    while i >= 0
      invariant -1 <= i <= 48
      invariant |data| == 48 - i
      invariant forall k :: 0 <= k < |data| ==> data[k] == AnomalyPointAt(48 - k, now, sin, draws)
    {
      data := data + [AnomalyPointAt(i, now, sin, draws)];
      i := i - 1;
    }
  }

  /** The trace covers the last 48 hours hour by hour and ends at `now`; a point is anomalous
      exactly when its roll falls under 0.08; with `Math.sin` in [-1, 1] ordinary values stay
      inside the band [25, 65) and anomalous ones lie in [55, 113). */
  lemma AnomalyPoint(now: int, sin: real -> real, draws: OverviewView.SeriesDraws, k: nat)
    requires forall x :: -1.0 <= sin(x) <= 1.0
    requires k < 49
    ensures var p := AnomalySeries(now, sin, draws)[k];
      p.timestamp == now - (48 - k) * OverviewView.HourMs &&
      (p.anomaly <==> draws.roll(48 - k) < 0.08) &&
      (!p.anomaly ==> p.lowerBound <= p.value < p.upperBound) &&
      (p.anomaly ==> 55.0 <= p.value < 113.0)
  {
    var p := AnomalySeries(now, sin, draws)[k];
    assert p == AnomalyPointAt(48 - k, now, sin, draws);
    var s := sin((48 - k) as real / 6.0);
    assert -15.0 <= s * 15.0 <= 15.0;
  }

  predicate IsAnomalous(p: OverviewView.SeriesPoint)
  {
    p.anomaly
  }

  /** `anomalyData.filter(d => d.anomaly).length`: the count written under the chart. */
  function AnomalyCount(data: seq<OverviewView.SeriesPoint>): (n: nat)
    ensures n <= |data|
  {
    |Filter(data, IsAnomalous)|
  }

  /** The anomaly flags the chart receives with the data. */
  function AnomalyFlags(data: seq<OverviewView.SeriesPoint>): (flags: seq<bool>)
    ensures |flags| == |data|
    ensures forall k :: 0 <= k < |data| ==> flags[k] == data[k].anomaly
  {
    seq(|data|, k requires 0 <= k < |data| => data[k].anomaly)
  }

  /** The count under the chart is positive exactly when the chart draws its anomaly markers. */
  lemma CountMatchesMarkers(data: seq<OverviewView.SeriesPoint>)
    ensures AnomalyCount(data) > 0 <==> MetricChart.SomeAnomaly(AnomalyFlags(data))
  {
    var kept := Filter(data, IsAnomalous);
    var flags := AnomalyFlags(data);
    if |kept| > 0 {
      FilterMembership(data, IsAnomalous, kept[0]);
      var k :| 0 <= k < |data| && data[k] == kept[0];
      assert flags[k];
    }
    if MetricChart.SomeAnomaly(flags) {
      var k :| 0 <= k < |flags| && flags[k];
      FilterMembership(data, IsAnomalous, data[k]);
      assert data[k] in kept;
    }
  }

  /** What the two charts draw: the forecast is an area chart with its band and baseline; the
      anomaly trace is a line chart, so its band is not drawn, with markers exactly when the
      written count is positive. */
  lemma ChartsDrawn(forecastFlags: seq<bool>, data: seq<OverviewView.SeriesPoint>)
    ensures MetricChart.SeriesOf(MetricChart.KindOf(Some("area")), true, true, forecastFlags) ==
      [MetricChart.BoundsBand, MetricChart.ValueArea, MetricChart.BaselineLine]
    ensures MetricChart.SeriesOf(MetricChart.KindOf(None), true, true, AnomalyFlags(data)) ==
      [MetricChart.ValueLine, MetricChart.BaselineLine] + (if AnomalyCount(data) > 0 then [MetricChart.AnomalyDots] else [])
  {
    CountMatchesMarkers(data);
  }

  // ---------------------------------------------------------------------
  // Insights
  // ---------------------------------------------------------------------

  datatype Insight = Insight(
    id: string,
    kind: string,
    title: string,
    description: string,
    confidence: real,
    impact: string,
    recommendation: string)

  /** `aiInsights`. */
  const Insights: seq<Insight> := [
    Insight("1", "forecast", "WAN Link Capacity Alert",
      "Primary WAN link will reach 85% utilization within 5 days based on current growth trend.",
      0.92, "high", "Consider upgrading bandwidth or implementing traffic shaping policies."),
    Insight("2", "anomaly", "Unusual Traffic Pattern Detected",
      "Router-01 showing 340% increase in internal traffic to subnet 10.0.50.0/24.",
      0.87, "medium", "Investigate potential lateral movement or data exfiltration."),
    Insight("3", "optimization", "Load Balancing Opportunity",
      "Uneven traffic distribution across core switches could be optimized.",
      0.94, "low", "Adjust ECMP weights to balance load more evenly."),
    Insight("4", "prediction", "Memory Saturation Predicted",
      "Server cluster memory usage trend indicates 90% utilization by next week.",
      0.89, "high", "Schedule memory upgrade or migrate workloads.")
  ]

  /** `getImpactColor`. */
  function ImpactColor(impact: string): (color: string)
    ensures color == "text-red-600 dark:text-red-400" <==> impact == "high"
    ensures color == "text-yellow-600 dark:text-yellow-400" <==> impact == "medium"
    ensures color == "text-blue-600 dark:text-blue-400" <==> impact == "low"
    ensures color == "text-gray-600 dark:text-gray-400" <==> impact !in {"high", "medium", "low"}
  {
    match impact
    case "high" => "text-red-600 dark:text-red-400"
    case "medium" => "text-yellow-600 dark:text-yellow-400"
    case "low" => "text-blue-600 dark:text-blue-400"
    case _ => "text-gray-600 dark:text-gray-400"
  }

  /** `getImpactVariant`. */
  function ImpactVariant(impact: string): (variant: string)
    ensures variant == "danger" <==> impact == "high"
    ensures variant == "warning" <==> impact == "medium"
    ensures variant == "info" <==> impact == "low"
    ensures variant == "secondary" <==> impact !in {"high", "medium", "low"}
  {
    match impact
    case "high" => "danger"
    case "medium" => "warning"
    case "low" => "info"
    case _ => "secondary"
  }

  /** The icon colour and the badge variant split the impacts the same way. */
  lemma ColorFollowsVariant(x: string, y: string)
    ensures ImpactColor(x) == ImpactColor(y) <==> ImpactVariant(x) == ImpactVariant(y)
  {
  }

  /** The confidence badge's number: `Math.round(confidence * 100)`. */
  function ConfidencePercent(i: Insight): (n: int)
    ensures i.confidence * 100.0 - 0.5 < n as real <= i.confidence * 100.0 + 0.5
  {
    Round(i.confidence * 100.0)
  }

  /** The four insights, counted by the "Insights Generated" tile, have distinct ids, declared
      impacts only, and show 92, 87, 94 and 89 per cent confidence. */
  lemma InsightBadges()
    ensures |Insights| == 4
    ensures forall a, b :: 0 <= a < b < |Insights| ==> Insights[a].id != Insights[b].id
    ensures forall k :: 0 <= k < |Insights| ==> ImpactVariant(Insights[k].impact) != "secondary"
    ensures [ConfidencePercent(Insights[0]), ConfidencePercent(Insights[1]),
             ConfidencePercent(Insights[2]), ConfidencePercent(Insights[3])] == [92, 87, 94, 89]
  {
  }

  // ---------------------------------------------------------------------
  // Model performance table
  // ---------------------------------------------------------------------

  /** A row of `modelPerformance`: its name, its accuracy and its optional extra scores by key. */
  datatype ModelRow = ModelRow(model: string, accuracy: real, scores: map<string, real>)

  const ModelRows: seq<ModelRow> := [
    ModelRow("Anomaly Detection (Isolation Forest)", 94.2, map["precision" := 91.8, "recall" := 96.5]),
    ModelRow("Traffic Forecasting (LSTM)", 87.3, map["mse" := 0.023, "mae" := 0.156]),
    ModelRow("Capacity Planning (Prophet)", 89.7, map["mape" := 8.2, "coverage" := 92.1]),
    ModelRow("Root Cause Analysis (XGBoost)", 78.9, map["f1" := 0.821, "auc" := 0.876])
  ]

  datatype Tier = Tier(variant: string, caption: string)

  /** The status badge: above 90 excellent, above 80 good, otherwise needing review. */
  function AccuracyTier(accuracy: real): (t: Tier)
    ensures t == Tier("success", "Excellent") <==> accuracy > 90.0
    ensures t == Tier("warning", "Good") <==> 80.0 < accuracy <= 90.0
    ensures t == Tier("danger", "Needs Review") <==> accuracy <= 80.0
  {
    if accuracy > 90.0 then Tier("success", "Excellent")
    else if accuracy > 80.0 then Tier("warning", "Good")
    else Tier("danger", "Needs Review")
  }

  /** The bounds are strict: exactly 90 is good and exactly 80 needs review; and the tier never
      drops as the accuracy grows. */
  lemma TierBoundaries(a: real, b: real)
    ensures AccuracyTier(90.0).caption == "Good" && AccuracyTier(80.0).caption == "Needs Review"
    ensures a <= b && AccuracyTier(a).caption == "Excellent" ==> AccuracyTier(b).caption == "Excellent"
    ensures a <= b && AccuracyTier(a).caption == "Good" ==> AccuracyTier(b).caption != "Needs Review"
  {
  }

  /** A cell of the two score columns: a percentage, a number to three decimals, or nothing. */
  datatype Cell = PercentCell(percent: real) | Fixed3Cell(number: real) | EmptyCell

  /** The "Precision/MSE" column: the precision when present, else the MSE, else nothing. */
  function PrecisionCell(row: ModelRow): (c: Cell)
    ensures c.PercentCell? <==> "precision" in row.scores
    ensures c.Fixed3Cell? <==> "precision" !in row.scores && "mse" in row.scores
    ensures c.PercentCell? ==> c.percent == row.scores["precision"]
    ensures c.Fixed3Cell? ==> c.number == row.scores["mse"]
  {
    if "precision" in row.scores then PercentCell(row.scores["precision"])
    else if "mse" in row.scores then Fixed3Cell(row.scores["mse"])
    else EmptyCell
  }

  /** The "Recall/MAE" column: the recall when present, else the MAE, else nothing. */
  function RecallCell(row: ModelRow): (c: Cell)
    ensures c.PercentCell? <==> "recall" in row.scores
    ensures c.Fixed3Cell? <==> "recall" !in row.scores && "mae" in row.scores
    ensures c.PercentCell? ==> c.percent == row.scores["recall"]
    ensures c.Fixed3Cell? ==> c.number == row.scores["mae"]
  {
    if "recall" in row.scores then PercentCell(row.scores["recall"])
    else if "mae" in row.scores then Fixed3Cell(row.scores["mae"])
    else EmptyCell
  }

  /** The table as shown: the tiers of the four rows, and the two score cells left empty for the
      rows that carry neither precision nor MSE, recall nor MAE. */
  lemma ModelTable()
    ensures |ModelRows| == 4
    ensures [AccuracyTier(ModelRows[0].accuracy).caption, AccuracyTier(ModelRows[1].accuracy).caption,
             AccuracyTier(ModelRows[2].accuracy).caption, AccuracyTier(ModelRows[3].accuracy).caption]
      == ["Excellent", "Good", "Good", "Needs Review"]
    ensures PrecisionCell(ModelRows[0]) == PercentCell(91.8) && RecallCell(ModelRows[0]) == PercentCell(96.5)
    ensures PrecisionCell(ModelRows[1]) == Fixed3Cell(0.023) && RecallCell(ModelRows[1]) == Fixed3Cell(0.156)
    ensures forall k :: 2 <= k < 4 ==> PrecisionCell(ModelRows[k]) == EmptyCell && RecallCell(ModelRows[k]) == EmptyCell
  {
  }

  // ---------------------------------------------------------------------
  // Model caption
  // ---------------------------------------------------------------------

  /** The separator " (" starts at position `j` of `s`. */
  predicate OpensAt(s: string, j: int)
  {
    0 <= j < |s| - 1 && s[j] == ' ' && s[j + 1] == '('
  }

  /** The position of the first " (" in `s`. */
  function FirstOpen(s: string): (k: Option<nat>)
    ensures k.Some? ==> OpensAt(s, k.value) && forall j :: 0 <= j < k.value ==> !OpensAt(s, j)
    ensures k.None? <==> forall j :: !OpensAt(s, j)
  {
    if |s| < 2 then None
    else if s[0] == ' ' && s[1] == '(' then Some(0)
    else match FirstOpen(s[1..])
      case None =>
        assert forall j :: OpensAt(s, j) ==> j == 0 || OpensAt(s[1..], j - 1);
        None
      case Some(k) =>
        assert forall j :: 1 <= j ==> (OpensAt(s, j) <==> OpensAt(s[1..], j - 1));
        Some(k + 1)
  }

  /** `t.split(' (')[0]`: the longest prefix of `t` that holds no " (", which is all of `t` or is
      followed in `t` by " (". */
  function BeforeOpen(t: string): (r: string)
    ensures r <= t
    ensures forall j :: !OpensAt(r, j)
    ensures |r| < |t| ==> OpensAt(t, |r|)
  {
    match FirstOpen(t)
    case None => t
    case Some(k) =>
      assert forall j :: OpensAt(t[..k], j) ==> j < k && OpensAt(t, j);
      t[..k]
  }

  /** `t.replace(')', '')`: removes the first ')' only. */
  function RemoveFirstClose(t: string): (r: string)
    ensures ')' !in t ==> r == t
    ensures ')' in t ==> |r| == |t| - 1
  {
    if t == [] then t
    else if t[0] == ')' then t[1..]
    else [t[0]] + RemoveFirstClose(t[1..])
  }

  /** With `k` the position of the first ')', the replacement drops exactly that character. */
  lemma {:induction false} RemoveFirstCloseAt(t: string, k: nat)
    requires k < |t| && t[k] == ')' && ')' !in t[..k]
    ensures RemoveFirstClose(t) == t[..k] + t[k + 1..]
  {
    if k > 0 {
      assert t[0] != ')' by { assert t[0] == t[..k][0]; }
      assert t[1..][..k - 1] == t[1..k];
      assert ')' !in t[1..k] by {
        forall c | c in t[1..k] ensures c != ')' {
          var i :| 0 <= i < |t[1..k]| && t[1..k][i] == c;
          assert c == t[..k][i + 1];
        }
      }
      RemoveFirstCloseAt(t[1..], k - 1);
      assert t[1..][..k - 1] + t[1..][k..] == t[1..k] + t[k + 1..];
      assert [t[0]] + t[1..k] == t[..k];
    }
  }

  /** The two lines of the model cell: the name, and the algorithm when the model has one. */
  datatype ModelCaption = ModelCaption(name: string, algorithm: Option<string>)

  /** `model.split(' (')[0]` and `model.split(' (')[1]?.replace(')', '')`: the text before the
      first " (", and the text between it and the next " (" with its first ')' removed. */
  function SplitModelName(model: string): (c: ModelCaption)
    ensures c.name <= model
    ensures forall j :: !OpensAt(c.name, j)
    ensures c.algorithm.None? <==> c.name == model
    ensures c.algorithm.None? <==> forall j :: !OpensAt(model, j)
    ensures c.algorithm.Some? ==>
      OpensAt(model, |c.name|) && c.algorithm.value == RemoveFirstClose(BeforeOpen(model[|c.name| + 2..]))
  {
    match FirstOpen(model)
    case None => ModelCaption(model, None)
    case Some(k) =>
      assert forall j :: OpensAt(model[..k], j) ==> j < k && OpensAt(model, j);
      ModelCaption(model[..k], Some(RemoveFirstClose(BeforeOpen(model[k + 2..]))))
  }

  /** A name with no '(' followed by " (", an algorithm with no parenthesis and ")" splits back into
      that name and that algorithm. */
  lemma SplitRoundTrip(name: string, algorithm: string)
    requires '(' !in name
    requires '(' !in algorithm && ')' !in algorithm
    ensures SplitModelName(name + " (" + algorithm + ")") == ModelCaption(name, Some(algorithm))
  {
    var model := name + " (" + algorithm + ")";
    assert OpensAt(model, |name|);
    forall j | 0 <= j < |name| ensures !OpensAt(model, j) {
      assert model[j + 1] == if j + 1 < |name| then name[j + 1] else ' ';
    }
    var rest := algorithm + ")";
    assert model[|name| + 2..] == rest;
    forall j ensures !OpensAt(rest, j) {
      if 0 <= j < |rest| - 1 {
        assert rest[j + 1] == if j + 1 < |algorithm| then algorithm[j + 1] else ')';
      }
    }
    RemoveLastClose(algorithm);
  }

  /** Removing the first ')' from `a + ")"`, when `a` has none, gives back `a`. */
  lemma {:induction false} RemoveLastClose(a: string)
    requires ')' !in a
    ensures RemoveFirstClose(a + ")") == a
  {
    if a != [] {
      assert (a + ")")[1..] == a[1..] + ")";
      RemoveLastClose(a[1..]);
    }
  }

  /** A model without " (" is shown whole, with no algorithm line. */
  lemma SplitWithoutAlgorithm(model: string)
    requires '(' !in model
    ensures SplitModelName(model) == ModelCaption(model, None)
  {
    forall j ensures !OpensAt(model, j) {
      if 0 <= j < |model| - 1 {
        assert model[j + 1] in model;
      }
    }
  }

  /** The captions the four rows show: the model on one line and its algorithm on the next. */
  const RowCaptions: seq<ModelCaption> := [
    ModelCaption("Anomaly Detection", Some("Isolation Forest")),
    ModelCaption("Traffic Forecasting", Some("LSTM")),
    ModelCaption("Capacity Planning", Some("Prophet")),
    ModelCaption("Root Cause Analysis", Some("XGBoost"))
  ]

  /** The model names of the four rows. */
  lemma RowModels()
    ensures ModelRows[0].model == "Anomaly Detection (Isolation Forest)"
    ensures ModelRows[1].model == "Traffic Forecasting (LSTM)"
    ensures ModelRows[2].model == "Capacity Planning (Prophet)"
    ensures ModelRows[3].model == "Root Cause Analysis (XGBoost)"
  {
  }

  /** Every row shows its model and its algorithm on separate lines. */
  lemma ModelCaptions(k: nat)
    requires k < |ModelRows|
    ensures SplitModelName(ModelRows[k].model) == RowCaptions[k]
  {
    RowModels();
    if k == 0 {
      IsolationForestCaption();
    } else if k == 1 {
      LstmCaption();
    } else if k == 2 {
      ProphetCaption();
    } else {
      XgBoostCaption();
    }
  }

  lemma IsolationForestCaption()
    ensures SplitModelName("Anomaly Detection (Isolation Forest)") == ModelCaption("Anomaly Detection", Some("Isolation Forest"))
  {
    CaptionOf("Anomaly Detection (Isolation Forest)", "Anomaly Detection", "Isolation Forest");
  }

  lemma LstmCaption()
    ensures SplitModelName("Traffic Forecasting (LSTM)") == ModelCaption("Traffic Forecasting", Some("LSTM"))
  {
    CaptionOf("Traffic Forecasting (LSTM)", "Traffic Forecasting", "LSTM");
  }

  lemma ProphetCaption()
    ensures SplitModelName("Capacity Planning (Prophet)") == ModelCaption("Capacity Planning", Some("Prophet"))
  {
    CaptionOf("Capacity Planning (Prophet)", "Capacity Planning", "Prophet");
  }

  lemma XgBoostCaption()
    ensures SplitModelName("Root Cause Analysis (XGBoost)") == ModelCaption("Root Cause Analysis", Some("XGBoost"))
  {
    CaptionOf("Root Cause Analysis (XGBoost)", "Root Cause Analysis", "XGBoost");
  }

  lemma CaptionOf(model: string, name: string, algorithm: string)
    requires model == name + " (" + algorithm + ")"
    requires '(' !in name
    requires '(' !in algorithm && ')' !in algorithm
    ensures SplitModelName(model) == ModelCaption(name, Some(algorithm))
  {
    SplitRoundTrip(name, algorithm);
  }

  /** The "Active Models" tile's 4 is the number of rows of the table. */
  lemma ActiveModelsTile()
    ensures |ModelRows| == 4 && |Insights| == 4
  {
  }
}
