/**
 * The overview page: status and alert tallies, the small star topology of
 * the first ten devices laid out on a four-column grid, the trend rules of
 * the stat cards, the truncated recent lists, and the synthetic time series
 * behind its charts. `Math.random`, `Math.sin` and `Date.now` are parameters.
 */
module OverviewView {
  import opened Common
  import opened Domain

  // ---------------------------------------------------------------------
  // Synthetic time series
  // ---------------------------------------------------------------------

  datatype SeriesPoint = SeriesPoint(
    timestamp: int,
    value: real,
    baseline: real,
    upperBound: real,
    lowerBound: real,
    anomaly: bool)

  /** The random draws of one series, indexed by the hour offset `i`: the noise of the base value,
      the anomaly roll and the size of an anomalous spike. */
  datatype SeriesDraws = SeriesDraws(noise: nat -> Unit01, roll: nat -> Unit01, spike: nat -> Unit01)

  const HourMs: int := 60 * 60 * 1000

  /** The point `i` hours before `now`. */
  function SeriesPointAt(i: nat, now: int, anomalies: bool, sin: real -> real, draws: SeriesDraws): SeriesPoint
  {
    var base := 30.0 + sin(i as real / 4.0) * 20.0 + draws.noise(i) * 10.0;
    var isAnomaly := anomalies && draws.roll(i) < 0.05;
    SeriesPoint(now - i * HourMs,
      if isAnomaly then base + 40.0 + draws.spike(i) * 20.0 else base,
      50.0, 70.0, 30.0, isAnomaly)
  }

  /** The series, oldest point first: offsets `hours`, `hours - 1`, ..., 0. */
  function TimeSeries(hours: nat, now: int, anomalies: bool, sin: real -> real, draws: SeriesDraws): (data: seq<SeriesPoint>)
    ensures |data| == hours + 1
    ensures forall k :: 0 <= k < |data| ==> data[k] == SeriesPointAt(hours - k, now, anomalies, sin, draws)
  {
    seq(hours + 1, k requires 0 <= k < hours + 1 => SeriesPointAt(hours - k, now, anomalies, sin, draws))
  }

  /** `generateTimeSeriesData`: counts `i` down from `hours` to 0, pushing one point per hour. */
  method GenerateTimeSeriesData(hours: nat, anomalies: bool, now: int, sin: real -> real, draws: SeriesDraws)
    returns (data: seq<SeriesPoint>)
    ensures data == TimeSeries(hours, now, anomalies, sin, draws)
  {
    data := [];
    var i: int := hours;
    while i >= 0
      invariant -1 <= i <= hours
      invariant |data| == hours - i
      invariant forall k :: 0 <= k < |data| ==> data[k] == SeriesPointAt(hours - k, now, anomalies, sin, draws)
    {
      data := data + [SeriesPointAt(i, now, anomalies, sin, draws)];
      i := i - 1;
    }
  }

  /** The series covers the last `hours` hours hour by hour and ends at `now`; without the anomaly
      flag no point is anomalous; with `Math.sin` in [-1, 1] ordinary values lie in [10, 60) and
      anomalous ones in [50, 120). */
  lemma TimeSeriesShape(hours: nat, now: int, anomalies: bool, sin: real -> real, draws: SeriesDraws)
    requires forall x :: -1.0 <= sin(x) <= 1.0
    ensures var data := TimeSeries(hours, now, anomalies, sin, draws);
      data[hours].timestamp == now &&
      (forall k :: 0 < k < |data| ==> data[k].timestamp == data[k - 1].timestamp + HourMs) &&
      (!anomalies ==> forall k :: 0 <= k < |data| ==> !data[k].anomaly) &&
      (forall k :: 0 <= k < |data| && !data[k].anomaly ==> 10.0 <= data[k].value < 60.0) &&
      (forall k :: 0 <= k < |data| && data[k].anomaly ==> 50.0 <= data[k].value < 120.0)
  {
    var data := TimeSeries(hours, now, anomalies, sin, draws);
    forall k | 0 <= k < |data|
      ensures !data[k].anomaly ==> 10.0 <= data[k].value < 60.0
      ensures data[k].anomaly ==> 50.0 <= data[k].value < 120.0
    {
      var i := hours - k;
      var s := sin(i as real / 4.0);
      assert -20.0 <= s * 20.0 <= 20.0;
    }
  }

  // ---------------------------------------------------------------------
  // Star topology of the first ten devices
  // ---------------------------------------------------------------------

  /** The grid position of the `i`-th node: four columns, 150 apart, starting at (200, 200). */
  function GridPosition(i: nat): Point
  {
    Point((200 + (i % 4) * 150) as real, (200 + (i / 4) * 150) as real)
  }

  /** Different indices get different grid cells. */
  lemma GridPositionsDistinct(i: nat, j: nat)
    requires i != j
    ensures GridPosition(i) != GridPosition(j)
  {
  }

  function OverviewNode(d: Device, i: nat, utilization: Unit01): TopologyNode
  {
    TopologyNode(d.id, DeviceNode, BeforeFirst(d.hostname, '.'), Some(d.role), d.status,
      Some(NodeMetrics(Some(d.metrics.cpuUtilization), Some(d.metrics.memoryUtilization), Some(utilization * 100.0))),
      Some(GridPosition(i)))
  }

  /** `devices.slice(0, 10)` projected to nodes placed on the grid. */
  function OverviewNodes(devices: seq<Device>, utilization: nat -> Unit01): (nodes: seq<TopologyNode>)
    ensures |nodes| == if |devices| < 10 then |devices| else 10
    ensures forall i :: 0 <= i < |nodes| ==>
      nodes[i].id == devices[i].id && nodes[i].status == devices[i].status &&
      nodes[i].deviceRole == Some(devices[i].role) && nodes[i].position == Some(GridPosition(i))
  {
    var shown := Take(devices, 10);
    var nodes := seq(|shown|, i requires 0 <= i < |shown| => OverviewNode(shown[i], i, utilization(i)));
    assert forall i :: 0 <= i < |nodes| ==> nodes[i] == OverviewNode(shown[i], i, utilization(i)) && shown[i] == devices[i];
    nodes
  }

  /** No two overview nodes share a position. */
  lemma OverviewPositionsDistinct(devices: seq<Device>, utilization: nat -> Unit01, i: nat, j: nat)
    requires i < j < |OverviewNodes(devices, utilization)|
    ensures OverviewNodes(devices, utilization)[i].position != OverviewNodes(devices, utilization)[j].position
  {
    GridPositionsDistinct(i, j);
  }

  /** The draws for the star edges: the status roll and the utilization of each edge. */
  datatype StarDraws = StarDraws(status: nat -> Unit01, utilization: nat -> Unit01)

  function StarEdge(hub: TopologyNode, node: TopologyNode, k: nat, draws: StarDraws): TopologyEdge
  {
    TopologyEdge("edge-" + NatToString(k), hub.id, node.id, Physical,
      if draws.status(k) > 0.1 then LinkUp else LinkDown,
      Some(1000), Some(draws.utilization(k) * 100.0), Some(Ethernet))
  }

  /** `nodes.slice(1).map(...)`: one edge from the first node to every other node. */
  function StarEdges(nodes: seq<TopologyNode>, draws: StarDraws): (edges: seq<TopologyEdge>)
    ensures |edges| == if |nodes| == 0 then 0 else |nodes| - 1
    ensures forall k :: 0 <= k < |edges| ==>
      edges[k].id == "edge-" + NatToString(k) && edges[k].source == nodes[0].id &&
      edges[k].target == nodes[k + 1].id && edges[k].bandwidth == Some(1000)
  {
    if |nodes| == 0 then []
    else seq(|nodes| - 1, k requires 0 <= k < |nodes| - 1 => StarEdge(nodes[0], nodes[k + 1], k, draws))
  }

  /** Every star edge joins two drawn nodes, and edge ids are pairwise distinct. */
  lemma StarEdgesWellFormed(nodes: seq<TopologyNode>, draws: StarDraws)
    ensures forall e :: e in StarEdges(nodes, draws) ==>
      (exists a :: 0 <= a < |nodes| && nodes[a].id == e.source) &&
      (exists b :: 0 <= b < |nodes| && nodes[b].id == e.target)
    ensures forall k, m :: 0 <= k < m < |StarEdges(nodes, draws)| ==>
      StarEdges(nodes, draws)[k].id != StarEdges(nodes, draws)[m].id
  {
    var edges := StarEdges(nodes, draws);
    forall e | e in edges
      ensures exists a :: 0 <= a < |nodes| && nodes[a].id == e.source
      ensures exists b :: 0 <= b < |nodes| && nodes[b].id == e.target
    {
      var k :| 0 <= k < |edges| && edges[k] == e;
      assert nodes[0].id == e.source;
      assert nodes[k + 1].id == e.target;
    }
    forall k, m | 0 <= k < m < |edges| ensures edges[k].id != edges[m].id {
      if edges[k].id == edges[m].id {
        assert "edge-" + NatToString(k) == "edge-" + NatToString(m);
        assert NatToString(k) == ("edge-" + NatToString(k))[5..];
        assert NatToString(m) == ("edge-" + NatToString(m))[5..];
        NatToStringInjective(k, m);
      }
    }
  }

  /** With distinct device ids, every shown device but the first is the target of exactly one edge. */
  lemma StarReachesEachNodeOnce(devices: seq<Device>, utilization: nat -> Unit01, draws: StarDraws, j: nat)
    requires UniqueIds(devices)
    requires 0 < j < |OverviewNodes(devices, utilization)|
    ensures var nodes := OverviewNodes(devices, utilization);
      Filter(StarEdges(nodes, draws), Into(nodes[j].id)) == [StarEdges(nodes, draws)[j - 1]]
  {
    var nodes := OverviewNodes(devices, utilization);
    var edges := StarEdges(nodes, draws);
    forall n | 0 <= n < |edges| && n != j - 1 ensures !Into(nodes[j].id)(edges[n]) {
      assert edges[n].target == devices[n + 1].id;
    }
    FilterSingle(edges, Into(nodes[j].id), j - 1);
  }

  // ---------------------------------------------------------------------
  // Stat cards
  // ---------------------------------------------------------------------

  datatype Trend = TrendUp | TrendDown

  /** Network Health: 'up' when more than 90% of the devices are up. */
  function HealthTrend(devices: seq<Device>): (t: Trend)
  {
    if StatusTally(devices, Up) as real > |devices| as real * 0.9 then TrendUp else TrendDown
  }

  /** The 90% threshold in whole numbers: 'up' iff 10 * up > 9 * total; an empty fleet trends down,
      and a non-empty fleet that is all up trends up. */
  lemma HealthTrendThreshold(devices: seq<Device>)
    ensures HealthTrend(devices) == TrendUp <==> 10 * StatusTally(devices, Up) > 9 * |devices|
    ensures |devices| == 0 ==> HealthTrend(devices) == TrendDown
    ensures |devices| > 0 && StatusTally(devices, Up) == |devices| ==> HealthTrend(devices) == TrendUp
  {
  }

  /** Active Alerts: 'down' exactly when some firing alert is critical. */
  function AlertsTrend(alerts: seq<Alert>): (t: Trend)
    ensures t == TrendDown <==> exists a :: a in alerts && a.state == Firing && a.severity == Critical
  {
    var critical := CriticalAlerts(ActiveAlerts(alerts));
    CriticalAreActive(alerts);
    if |critical| > 0 then
      assert critical[0] in critical;
      TrendDown
    else TrendUp
  }

  /** The sum of the CPU utilizations. */
  function CpuSum(devices: seq<Device>): real
  {
    if devices == [] then 0.0 else CpuSum(devices[..|devices| - 1]) + devices[|devices| - 1].metrics.cpuUtilization
  }

  /** Avg CPU Usage: 'down' when the average exceeds 80; on no devices the average is not a number
      and every comparison with it is false. */
  function CpuTrend(devices: seq<Device>): (t: Trend)
    ensures t == TrendDown <==> |devices| > 0 && CpuSum(devices) / |devices| as real > 80.0
  {
    if |devices| > 0 && CpuSum(devices) / |devices| as real > 80.0 then TrendDown else TrendUp
  }

  /** Every device above 80% CPU makes the trend 'down'. */
  lemma {:induction false} CpuSumBelow(devices: seq<Device>, bound: real)
    requires forall i :: 0 <= i < |devices| ==> devices[i].metrics.cpuUtilization > bound
    ensures |devices| > 0 ==> CpuSum(devices) > bound * |devices| as real
  {
    if |devices| > 1 {
      CpuSumBelow(devices[..|devices| - 1], bound);
    }
  }

  lemma AllHotMeansCpuTrendDown(devices: seq<Device>)
    requires |devices| > 0
    requires forall i :: 0 <= i < |devices| ==> devices[i].metrics.cpuUtilization > 80.0
    ensures CpuTrend(devices) == TrendDown
  {
    CpuSumBelow(devices, 80.0);
    var n := |devices| as real;
    assert CpuSum(devices) / n > 80.0 by {
      assert CpuSum(devices) > 80.0 * n;
    }
  }

  // ---------------------------------------------------------------------
  // Truncated lists
  // ---------------------------------------------------------------------

  /** `activeAlerts.slice(0, 5)`: the first five firing alerts, in order. */
  function RecentAlerts(alerts: seq<Alert>): (recent: seq<Alert>)
    ensures recent <= ActiveAlerts(alerts)
    ensures |recent| == if |ActiveAlerts(alerts)| < 5 then |ActiveAlerts(alerts)| else 5
    ensures forall a :: a in recent ==> a in alerts && a.state == Firing
  {
    var active := ActiveAlerts(alerts);
    var recent := Take(active, 5);
    assert forall a :: a in recent ==> a in active by {
      forall a | a in recent ensures a in active {
        var k :| 0 <= k < |recent| && recent[k] == a;
        assert active[k] == a;
      }
    }
    recent
  }

  /** The badge of a recent alert. */
  function RecentAlertVariant(a: Alert): (variant: string)
    ensures variant == "danger" <==> a.severity == Critical
    ensures variant == "warning" <==> a.severity != Critical
  {
    if a.severity == Critical then "danger" else "warning"
  }

  /** `anomalies.slice(0, 4)`. */
  function ListedAnomalies(anomalies: seq<Anomaly>): (listed: seq<Anomaly>)
    ensures listed <= anomalies
    ensures |listed| <= 4 && (|anomalies| >= 4 ==> |listed| == 4)
  {
    Take(anomalies, 4)
  }
}
