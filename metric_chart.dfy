/**
 * The metric chart: how a value is scaled to a unit for the axis and the
 * tooltip, and which series the chart draws for each chart type and flag.
 * `toFixed(1)` and `toLocaleString` are kept abstract: a formatted value
 * records the number handed to them and the suffix written after it.
 */
module MetricChart {
  import opened Common

  // ---------------------------------------------------------------------
  // Unit scaling
  // ---------------------------------------------------------------------

  /** What `formatValue` writes: a number with one decimal and a suffix, the plain number and a
      suffix, or the locale rendering of the number. */
  datatype Formatted = Fixed1(mantissa: real, suffix: string) | Plain(value: real, suffix: string) | Locale(value: real)

  /** The magnitude tier of a byte or bit count: 3 from 1e9 up, 2 from 1e6, 1 from 1e3, else 0
      (negative values included). */
  function Tier(value: real): (t: nat)
    ensures t <= 3
    ensures t == 3 <==> value >= 1000000000.0
    ensures t == 2 <==> 1000000.0 <= value < 1000000000.0
    ensures t == 1 <==> 1000.0 <= value < 1000000.0
    ensures t == 0 <==> value < 1000.0
  {
    if value >= 1000000000.0 then 3
    else if value >= 1000000.0 then 2
    else if value >= 1000.0 then 1
    else 0
  }

  function Divisor(t: nat): real
    requires t <= 3
  {
    match t
    case 3 => 1000000000.0
    case 2 => 1000000.0
    case 1 => 1000.0
    case _ => 1.0
  }

  function ByteSuffix(t: nat): string
    requires t <= 3
  {
    match t
    case 3 => "GB"
    case 2 => "MB"
    case 1 => "KB"
    case _ => "B"
  }

  function BitSuffix(t: nat): string
    requires t <= 3
  {
    match t
    case 3 => "Gbps"
    case 2 => "Mbps"
    case 1 => "Kbps"
    case _ => "bps"
  }

  /** Scales a byte count (or, with `bits`, a bit rate) to its tier; the bottom tier writes the
      number unscaled. */
  function Scaled(value: real, bits: bool): Formatted
  {
    var t := Tier(value);
    var suffix := if bits then BitSuffix(t) else ByteSuffix(t);
    if t == 0 then Plain(value, suffix) else Fixed1(value / Divisor(t), suffix)
  }

  /** `formatValue`: '%' ignores the magnitude, 'bytes' and 'bps' scale by tier, any other unit
      is left to the locale. */
  function FormatValue(value: real, unit: string): (f: Formatted)
    ensures unit == "%" ==> f == Fixed1(value, "%")
    ensures unit == "bytes" || unit == "bps" ==> (f.Fixed1? <==> value >= 1000.0)
    ensures unit == "bytes" && value < 1000.0 ==> f == Plain(value, "B")
    ensures unit == "bps" && value < 1000.0 ==> f == Plain(value, "bps")
    ensures unit !in {"%", "bytes", "bps"} ==> f == Locale(value)
  {
    if unit == "%" then Fixed1(value, "%")
    else if unit == "bytes" then Scaled(value, false)
    else if unit == "bps" then Scaled(value, true)
    else Locale(value)
  }

  /** Scaling loses nothing: the written number times the tier's divisor is the value, with the
      suffix of that tier. */
  lemma ScalingRoundTrip(value: real, unit: string)
    requires unit == "bytes" || unit == "bps"
    requires value >= 1000.0
    ensures FormatValue(value, unit).mantissa * Divisor(Tier(value)) == value
    ensures FormatValue(value, unit).suffix ==
      if unit == "bytes" then ByteSuffix(Tier(value)) else BitSuffix(Tier(value))
  {
  }

  /** Below the top tier the written number lies in [1, 1000); in the top tier it is at least 1. */
  lemma MantissaRange(value: real, unit: string)
    requires unit == "bytes" || unit == "bps"
    requires value >= 1000.0
    ensures 1.0 <= FormatValue(value, unit).mantissa
    ensures value < 1000000000.0 ==> FormatValue(value, unit).mantissa < 1000.0
  {
    var t := Tier(value);
    var m := value / Divisor(t);
    assert m * Divisor(t) == value;
  }

  /** 'bps' mirrors 'bytes': the same tiers at the same thresholds and the same written number. */
  lemma BitsMirrorBytes(value: real)
    ensures FormatValue(value, "bytes").Fixed1? == FormatValue(value, "bps").Fixed1?
    ensures FormatValue(value, "bytes").Fixed1? ==>
      FormatValue(value, "bytes").mantissa == FormatValue(value, "bps").mantissa
    ensures FormatValue(value, "bytes").Plain? ==>
      FormatValue(value, "bytes").value == FormatValue(value, "bps").value
  {
  }

  /** The tier never drops as the value grows. */
  lemma TierMonotone(v: real, w: real)
    requires v <= w
    ensures Tier(v) <= Tier(w)
  {
  }

  /** The thresholds are inclusive: exactly 1000 bytes is written as 1.0 KB. */
  lemma ThresholdsInclusive()
    ensures FormatValue(1000.0, "bytes") == Fixed1(1.0, "KB")
    ensures FormatValue(1000000.0, "bps") == Fixed1(1.0, "Mbps")
    ensures FormatValue(999.0, "bytes") == Plain(999.0, "B")
  {
  }

  // ---------------------------------------------------------------------
  // Chart elements
  // ---------------------------------------------------------------------

  datatype ChartKind = AreaChart | BarChart | LineChart

  /** The `type` prop: 'line' when absent; any value but 'area' and 'bar' draws a line chart. */
  function KindOf(chartType: Option<string>): (k: ChartKind)
    ensures k == AreaChart <==> chartType == Some("area")
    ensures k == BarChart <==> chartType == Some("bar")
    ensures chartType.None? ==> k == LineChart
  {
    match chartType
    case Some("area") => AreaChart
    case Some("bar") => BarChart
    case _ => LineChart
  }

  datatype Series = BoundsBand | ValueArea | ValueBars | ValueLine | BaselineLine | AnomalyDots

  /** Some point of the data is flagged anomalous (`data.some(d => d.anomaly)`). */
  predicate SomeAnomaly(anomaly: seq<bool>)
  {
    exists i :: 0 <= i < |anomaly| && anomaly[i]
  }

  /** The series a chart draws, in drawing order, given the chart kind, the two flags and the
      anomaly flags of the data. */
  function SeriesOf(kind: ChartKind, showBaseline: bool, showBounds: bool, anomaly: seq<bool>): (s: seq<Series>)
    ensures BoundsBand in s <==> kind == AreaChart && showBounds
    ensures BaselineLine in s <==> kind != BarChart && showBaseline
    ensures AnomalyDots in s <==> kind == LineChart && SomeAnomaly(anomaly)
    ensures kind == BarChart ==> s == [ValueBars]
    ensures (ValueArea in s) == (kind == AreaChart) && (ValueLine in s) == (kind == LineChart)
  {
    match kind
    case AreaChart =>
      (if showBounds then [BoundsBand] else []) + [ValueArea] + (if showBaseline then [BaselineLine] else [])
    case BarChart => [ValueBars]
    case LineChart =>
      [ValueLine] + (if showBaseline then [BaselineLine] else []) + (if SomeAnomaly(anomaly) then [AnomalyDots] else [])
  }

  /** With the default props (no type, no flags) a chart is a bare line plus, when some point is
      anomalous, the anomaly dots. */
  lemma DefaultChart(anomaly: seq<bool>)
    ensures SeriesOf(KindOf(None), false, false, anomaly) ==
      if SomeAnomaly(anomaly) then [ValueLine, AnomalyDots] else [ValueLine]
  {
  }

  /** The anomaly overlay marks exactly the anomalous points. */
  function AnomalyMarkers(anomaly: seq<bool>): (marked: set<nat>)
    ensures forall i: nat :: i in marked <==> i < |anomaly| && anomaly[i]
    ensures marked != {} <==> SomeAnomaly(anomaly)
  {
    var marked := set i: nat | i < |anomaly| && anomaly[i];
    assert SomeAnomaly(anomaly) ==> marked != {} by {
      if SomeAnomaly(anomaly) {
        var i :| 0 <= i < |anomaly| && anomaly[i];
        assert i in marked;
      }
    }
    marked
  }
}
