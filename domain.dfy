/**
 * The records and enumerations of the network-monitoring dashboard
 * (devices, interfaces, alerts, anomalies, tenants, topology nodes and
 * edges, time ranges). Dates are milliseconds since the epoch; the string
 * unions of the TypeScript types become datatypes whose `Name` is the
 * string the program compares against.
 */
module Domain {
  import opened Common

  datatype Role = Router | Switch | Firewall | Server | Ap | Printer | Iot
  {
    function Name(): string
    {
      match this
      case Router => "router"
      case Switch => "switch"
      case Firewall => "firewall"
      case Server => "server"
      case Ap => "ap"
      case Printer => "printer"
      case Iot => "iot"
    }
  }

  datatype DeviceStatus = Up | Down | Warning | Unknown
  {
    function Name(): string
    {
      match this
      case Up => "up"
      case Down => "down"
      case Warning => "warning"
      case Unknown => "unknown"
    }
  }

  datatype AlertState = Firing | Resolved | Acknowledged | Silenced
  {
    function Name(): string
    {
      match this
      case Firing => "firing"
      case Resolved => "resolved"
      case Acknowledged => "acknowledged"
      case Silenced => "silenced"
    }
  }

  datatype Severity = Critical | High | Medium | Low | Info
  {
    function Name(): string
    {
      match this
      case Critical => "critical"
      case High => "high"
      case Medium => "medium"
      case Low => "low"
      case Info => "info"
    }
  }

  /** Severities of an anomaly: 'high' | 'medium' | 'low'. */
  datatype AnomalySeverity = AnomalyHigh | AnomalyMedium | AnomalyLow

  datatype EdgeStatus = LinkUp | LinkDown | LinkDegraded
  {
    function Name(): string
    {
      match this
      case LinkUp => "up"
      case LinkDown => "down"
      case LinkDegraded => "degraded"
    }
  }

  datatype NodeKind = DeviceNode | SiteNode | CloudNode
  datatype LinkType = Physical | Logical | Wireless
  datatype Protocol = Ethernet | WifiProtocol | Vpn | Bgp | Ospf
  datatype InterfaceStatus = IfUp | IfDown | IfTesting
  datatype InterfaceType = EthernetPort | WifiPort | TunnelPort | LoopbackPort | SerialPort
  datatype UserRole = Admin | Noc | SecOps | ReadOnly | TenantAdmin

  datatype NetworkInterface = NetworkInterface(
    id: string,
    deviceId: string,
    name: string,
    ifIndex: nat,
    speed: nat,
    vlan: Option<nat>,
    description: string,
    status: InterfaceStatus,
    utilization: real,
    errors: nat,
    ifType: InterfaceType)

  datatype InterfaceStat = InterfaceStat(
    inBytes: nat, outBytes: nat,
    inPackets: nat, outPackets: nat,
    inErrors: nat, outErrors: nat,
    utilization: real)

  datatype DeviceMetrics = DeviceMetrics(
    cpuUtilization: real,
    memoryUtilization: real,
    temperature: real,
    uptime: nat,
    interfaceStats: map<string, InterfaceStat>)

  datatype Device = Device(
    id: string,
    tenantId: string,
    hostname: string,
    mgmtIp: string,
    model: string,
    role: Role,
    location: string,
    tags: seq<string>,
    status: DeviceStatus,
    credsRef: string,
    createdAt: int,
    updatedAt: int,
    interfaces: seq<NetworkInterface>,
    metrics: DeviceMetrics)

  datatype Alert = Alert(
    id: string,
    tenantId: string,
    ruleId: string,
    state: AlertState,
    severity: Severity,
    startedAt: int,
    endedAt: Option<int>,
    title: string,
    description: string,
    deviceId: Option<string>,
    tags: seq<string>,
    runbook: Option<string>)

  datatype Anomaly = Anomaly(
    id: string,
    tenantId: string,
    entityId: string,
    metric: string,
    detectedAt: int,
    severity: AnomalySeverity,
    score: real,
    baseline: real,
    actualValue: real,
    deviation: real,
    seasonalBaseline: Option<real>,
    aiModel: string,
    confidence: real,
    description: string)

  datatype Site = Site(id: string, name: string, subnets: seq<string>, address: string, longitude: real, latitude: real)

  datatype User = User(id: string, email: string, name: string, role: UserRole, tenantId: string, permissions: seq<string>)

  datatype Tenant = Tenant(id: string, name: string, sites: seq<Site>, users: seq<User>)

  datatype Point = Point(x: real, y: real)

  datatype NodeMetrics = NodeMetrics(cpu: Option<real>, memory: Option<real>, utilization: Option<real>)

  /** A TypeScript `label` field is called `caption` here: `label` is a Dafny keyword. */
  datatype TopologyNode = TopologyNode(
    id: string,
    kind: NodeKind,
    caption: string,
    deviceRole: Option<Role>,
    status: DeviceStatus,
    metrics: Option<NodeMetrics>,
    position: Option<Point>)

  datatype TopologyEdge = TopologyEdge(
    id: string,
    source: string,
    target: string,
    linkType: LinkType,
    status: EdgeStatus,
    bandwidth: Option<nat>,
    utilization: Option<real>,
    protocol: Option<Protocol>)

  /** The predicate handed to `filter` to find the edges into a node. */
  function Into(id: string): TopologyEdge -> bool
  {
    (e: TopologyEdge) => e.target == id
  }

  datatype TimeRange = TimeRange(start: int, end: int, caption: string)

  /** `alerts.filter(a => a.state === 'firing')`. */
  function ActiveAlerts(alerts: seq<Alert>): (r: seq<Alert>)
    ensures IsSubsequence(r, alerts)
    ensures forall a :: a in r <==> a in alerts && a.state == Firing
  {
    var r := Filter(alerts, (a: Alert) => a.state == Firing);
    assert forall a :: a in r <==> a in alerts && a.state == Firing by {
      forall a ensures a in r <==> a in alerts && a.state == Firing {
        FilterMembership(alerts, (a: Alert) => a.state == Firing, a);
      }
    }
    r
  }

  /** `activeAlerts.filter(a => a.severity === 'critical')`. */
  function CriticalAlerts(active: seq<Alert>): (r: seq<Alert>)
    ensures IsSubsequence(r, active)
    ensures forall a :: a in r <==> a in active && a.severity == Critical
  {
    var r := Filter(active, (a: Alert) => a.severity == Critical);
    assert forall a :: a in r <==> a in active && a.severity == Critical by {
      forall a ensures a in r <==> a in active && a.severity == Critical {
        FilterMembership(active, (a: Alert) => a.severity == Critical, a);
      }
    }
    r
  }

  /** Critical alerts are active: firing and of critical severity, never more than the active ones. */
  lemma CriticalAreActive(alerts: seq<Alert>)
    ensures forall a :: a in CriticalAlerts(ActiveAlerts(alerts)) <==>
      a in alerts && a.state == Firing && a.severity == Critical
    ensures |CriticalAlerts(ActiveAlerts(alerts))| <= |ActiveAlerts(alerts)| <= |alerts|
  {
  }

  /** `devices.filter(d => d.status === s).length`. */
  function StatusTally(devices: seq<Device>, s: DeviceStatus): nat
  {
    |Filter(devices, (d: Device) => d.status == s)|
  }

  /** The up, down and warning tallies together never exceed the device count ('unknown' is not tallied). */
  lemma StatusTalliesBounded(devices: seq<Device>)
    ensures StatusTally(devices, Up) + StatusTally(devices, Down) + StatusTally(devices, Warning) <= |devices|
  {
    FilterDisjointTallies(devices,
      (d: Device) => d.status == Up, (d: Device) => d.status == Down, (d: Device) => d.status == Warning);
  }

  /** The bound is exact when no device has status 'unknown'. */
  lemma StatusTalliesExact(devices: seq<Device>)
    requires forall i :: 0 <= i < |devices| ==> devices[i].status != Unknown
    ensures StatusTally(devices, Up) + StatusTally(devices, Down) + StatusTally(devices, Warning) == |devices|
  {
    FilterCoveringTallies(devices,
      (d: Device) => d.status == Up, (d: Device) => d.status == Down, (d: Device) => d.status == Warning);
  }

  /** No two devices share an id (the mock generator guarantees it). */
  predicate UniqueIds(ds: seq<Device>)
  {
    forall a, b :: 0 <= a < b < |ds| ==> ds[a].id != ds[b].id
  }

  lemma {:induction false} FilterKeepsUniqueIds(ds: seq<Device>, p: Device -> bool)
    requires UniqueIds(ds)
    ensures UniqueIds(Filter(ds, p))
  {
    if ds != [] {
      FilterKeepsUniqueIds(ds[1..], p);
      var rest := Filter(ds[1..], p);
      forall y | y in rest ensures y.id != ds[0].id {
        FilterMembership(ds[1..], p, y);
        var k :| 0 <= k < |ds[1..]| && ds[1..][k] == y;
        assert ds[k + 1] == y;
      }
      if p(ds[0]) {
        var r := [ds[0]] + rest;
        forall a, b | 0 <= a < b < |r| ensures r[a].id != r[b].id {
          if a == 0 {
            assert r[b] in rest;
          } else {
            assert r[a] == rest[a - 1] && r[b] == rest[b - 1];
          }
        }
      }
    }
  }
}
