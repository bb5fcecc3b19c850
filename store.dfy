/**
 * The application store: the mock data generators and the shared state
 * with its setters, fetchers and start-up action. Every call of
 * `Math.random()` is a draw `rand(site)` where the site names the call and
 * the device, interface, alert or anomaly it is made for; `Date.now()` is
 * the parameter `now` (milliseconds).
 */
module Store {
  import opened Common
  import opened Domain

  // ---------------------------------------------------------------------
  // Random draws
  // ---------------------------------------------------------------------

  datatype DeviceField = ModelNumber | StatusRoll | StatusFallback | CreatedAge | PortCount
    | CpuRoll | MemoryRoll | TemperatureRoll | UptimeRoll
  datatype PortField = SpeedRoll | VlanRoll | UplinkRoll | PortStatusRoll | PortUtilization | PortErrors
    | InBytes | OutBytes | InPackets | OutPackets | InErrors | OutErrors
  datatype AlertField = RuleRoll | StateRoll | SeverityRoll | StartAge | EndedRoll | EndAge | TagSeverityRoll
  datatype AnomalyField = DetectAge | AnomalySeverityRoll | ScoreRoll | BaselineRoll | ActualRoll
    | DeviationRoll | SeasonalRoll | ConfidenceRoll

  /** Which `Math.random()` call a draw stands for. */
  datatype RandomSite =
    | DeviceSite(i: nat, d: DeviceField)
    | PortSite(i: nat, j: nat, p: PortField)
    | AlertSite(k: nat, a: AlertField)
    | AnomalySite(k: nat, n: AnomalyField)

  type Random = RandomSite -> Unit01

  const DayMs: nat := 24 * 60 * 60 * 1000

  // ---------------------------------------------------------------------
  // Devices
  // ---------------------------------------------------------------------

  /** The cycle of roles: device `i` gets `DeviceTypes[i % 5]`. */
  const DeviceTypes: seq<Role> := [Router, Switch, Firewall, Server, Ap]
  const Locations: seq<string> := ["DC1-Rack-A", "DC1-Rack-B", "DC2-Rack-A", "Office-Floor-1", "Office-Floor-2"]

  /** `i.toString().padStart(3, '0')`. */
  function Pad3(i: nat): string
  {
    PadStart(NatToString(i), 3, '0')
  }

  /** The id of the `i`-th mock device of a tenant. */
  function DeviceId(tenantId: string, i: nat): string
  {
    "dev-" + tenantId + "-" + Pad3(i)
  }

  /** Distinct indices give distinct device ids. */
  lemma DeviceIdInjective(tenantId: string, m: nat, n: nat)
    requires DeviceId(tenantId, m) == DeviceId(tenantId, n)
    ensures m == n
  {
    var prefix := "dev-" + tenantId + "-";
    assert DeviceId(tenantId, m)[|prefix|..] == Pad3(m);
    assert DeviceId(tenantId, n)[|prefix|..] == Pad3(n);
    PaddedInjective(m, n, 3);
  }

  /** `<role>-<i padded to 2>`, the hostname's first label. */
  function HostLabel(i: nat): string
  {
    DeviceTypes[i % 5].Name() + "-" + PadStart(NatToString(i), 2, '0')
  }

  function Hostname(i: nat): string
  {
    HostLabel(i) + ".example.com"
  }

  /** `10.0.<i div 10>.<i mod 256>`. */
  function MgmtIp(i: nat): string
  {
    "10.0." + NatToString(i / 10) + "." + NatToString(i % 256)
  }

  function DeviceTags(i: nat): seq<string>
  {
    ["env:" + (if i % 2 == 0 then "prod" else "dev"), "zone:" + BeforeFirst(Locations[i % 5], '-')]
  }

  /** Up with probability 0.9; otherwise a second draw decides between warning and down. */
  function MockStatus(i: nat, rand: Random): (status: DeviceStatus)
    ensures status != Unknown
  {
    if rand(DeviceSite(i, StatusRoll)) > 0.1 then Up
    else if rand(DeviceSite(i, StatusFallback)) > 0.5 then Warning
    else Down
  }

  /** The number of interfaces of device `i`: `floor(random * 24) + 4`. */
  function PortTotal(i: nat, rand: Random): nat
  {
    RandomBelow(rand(DeviceSite(i, PortCount)), 24) + 4
  }

  function InterfaceId(i: nat, j: nat): string
  {
    "if-" + NatToString(i) + "-" + NatToString(j)
  }

  function MockInterface(tenantId: string, i: nat, j: nat, rand: Random): NetworkInterface
  {
    NetworkInterface(
      InterfaceId(i, j),
      DeviceId(tenantId, i),
      "GigabitEthernet0/" + NatToString(j),
      j,
      if rand(PortSite(i, j, SpeedRoll)) > 0.3 then 1000 else 10000,
      Some(RandomBelow(rand(PortSite(i, j, VlanRoll)), 100) + 1),
      "Interface " + NatToString(j) + " - " + (if rand(PortSite(i, j, UplinkRoll)) > 0.5 then "Uplink" else "Access"),
      if rand(PortSite(i, j, PortStatusRoll)) > 0.05 then IfUp else IfDown,
      rand(PortSite(i, j, PortUtilization)) * 100.0,
      RandomBelow(rand(PortSite(i, j, PortErrors)), 1000),
      EthernetPort)
  }

  /** `Array.from({ length }, (_, j) => ...)`: interfaces 0 .. count-1 of device `i`. */
  function MockInterfaces(tenantId: string, i: nat, rand: Random): (ifaces: seq<NetworkInterface>)
    ensures 4 <= |ifaces| <= 27
    ensures forall j :: 0 <= j < |ifaces| ==> ifaces[j] == MockInterface(tenantId, i, j, rand)
  {
    seq(PortTotal(i, rand), j requires 0 <= j < PortTotal(i, rand) => MockInterface(tenantId, i, j, rand))
  }

  /** The counters of the `k`-th interface of device `i`; utilization is copied from the interface. */
  function StatFor(i: nat, k: nat, iface: NetworkInterface, rand: Random): InterfaceStat
  {
    InterfaceStat(
      RandomBelow(rand(PortSite(i, k, InBytes)), 1000000000),
      RandomBelow(rand(PortSite(i, k, OutBytes)), 1000000000),
      RandomBelow(rand(PortSite(i, k, InPackets)), 10000000),
      RandomBelow(rand(PortSite(i, k, OutPackets)), 10000000),
      RandomBelow(rand(PortSite(i, k, InErrors)), 1000),
      RandomBelow(rand(PortSite(i, k, OutErrors)), 1000),
      iface.utilization)
  }

  /** The dictionary the `forEach` leaves behind: one write per interface, in order. */
  function StatsMap(i: nat, ifaces: seq<NetworkInterface>, rand: Random): map<string, InterfaceStat>
  {
    if ifaces == [] then map[]
    else
      var k := |ifaces| - 1;
      StatsMap(i, ifaces[..k], rand)[ifaces[k].id := StatFor(i, k, ifaces[k], rand)]
  }

  /** Writes one counter entry per interface into a dictionary that starts empty. */
  method FillInterfaceStats(i: nat, ifaces: seq<NetworkInterface>, rand: Random)
    returns (stats: map<string, InterfaceStat>)
    ensures stats == StatsMap(i, ifaces, rand)
  {
    stats := map[];
    var k := 0;
    while k < |ifaces|
      invariant 0 <= k <= |ifaces|
      invariant stats == StatsMap(i, ifaces[..k], rand)
    {
      assert ifaces[..k + 1][..k] == ifaces[..k];
      stats := stats[ifaces[k].id := StatFor(i, k, ifaces[k], rand)];
      k := k + 1;
    }
    assert ifaces[..k] == ifaces;
  }

  /** The dictionary has exactly the interface ids as keys. */
  lemma {:induction false} StatsMapKeys(i: nat, ifaces: seq<NetworkInterface>, rand: Random)
    ensures StatsMap(i, ifaces, rand).Keys == set k | 0 <= k < |ifaces| :: ifaces[k].id
  {
    if ifaces != [] {
      var n := |ifaces| - 1;
      StatsMapKeys(i, ifaces[..n], rand);
      assert (set k | 0 <= k < |ifaces| :: ifaces[k].id) ==
        (set k | 0 <= k < n :: ifaces[..n][k].id) + {ifaces[n].id};
    }
  }

  /** With distinct interface ids, each interface's entry carries its own counters and utilization. */
  lemma {:induction false} StatsMapEntries(i: nat, ifaces: seq<NetworkInterface>, rand: Random, k: nat)
    requires forall a, b :: 0 <= a < b < |ifaces| ==> ifaces[a].id != ifaces[b].id
    requires k < |ifaces|
    ensures ifaces[k].id in StatsMap(i, ifaces, rand)
    ensures StatsMap(i, ifaces, rand)[ifaces[k].id] == StatFor(i, k, ifaces[k], rand)
    ensures StatsMap(i, ifaces, rand)[ifaces[k].id].utilization == ifaces[k].utilization
  {
    var n := |ifaces| - 1;
    if k < n {
      StatsMapEntries(i, ifaces[..n], rand, k);
      assert ifaces[k].id != ifaces[n].id;
    }
  }

  /** The interface ids of one device are pairwise distinct. */
  lemma InterfaceIdsDistinct(tenantId: string, i: nat, rand: Random)
    ensures var ifaces := MockInterfaces(tenantId, i, rand);
      forall a, b :: 0 <= a < b < |ifaces| ==> ifaces[a].id != ifaces[b].id
  {
    var ifaces := MockInterfaces(tenantId, i, rand);
    forall a, b | 0 <= a < b < |ifaces| ensures ifaces[a].id != ifaces[b].id {
      var prefix := "if-" + NatToString(i) + "-";
      if ifaces[a].id == ifaces[b].id {
        assert InterfaceId(i, a)[|prefix|..] == NatToString(a);
        assert InterfaceId(i, b)[|prefix|..] == NatToString(b);
        NatToStringInjective(a, b);
      }
    }
  }

  /** Device `i` with the given interface counters. */
  function DeviceWith(tenantId: string, i: nat, now: int, rand: Random, stats: map<string, InterfaceStat>): Device
  {
    Device(
      DeviceId(tenantId, i),
      tenantId,
      Hostname(i),
      MgmtIp(i),
      "Model-" + DeviceTypes[i % 5].Name() + "-" + NatToString(RandomBelow(rand(DeviceSite(i, ModelNumber)), 1000)),
      DeviceTypes[i % 5],
      Locations[i % 5],
      DeviceTags(i),
      MockStatus(i, rand),
      "creds-" + NatToString(i),
      now - RandomBelow(rand(DeviceSite(i, CreatedAge)), 30 * DayMs),
      now,
      MockInterfaces(tenantId, i, rand),
      DeviceMetrics(
        rand(DeviceSite(i, CpuRoll)) * 100.0,
        rand(DeviceSite(i, MemoryRoll)) * 100.0,
        20.0 + rand(DeviceSite(i, TemperatureRoll)) * 40.0,
        RandomBelow(rand(DeviceSite(i, UptimeRoll)), 365 * 24 * 60 * 60),
        stats))
  }

  /** Device `i` as generated, its interface counters filled in. */
  function MockDevice(tenantId: string, i: nat, now: int, rand: Random): Device
  {
    DeviceWith(tenantId, i, now, rand, StatsMap(i, MockInterfaces(tenantId, i, rand), rand))
  }

  /** The 25 mock devices, for i = 1 .. 25. */
  function MockDevices(tenantId: string, now: int, rand: Random): (devices: seq<Device>)
    ensures |devices| == 25
  {
    seq(25, k requires 0 <= k < 25 => MockDevice(tenantId, k + 1, now, rand))
  }

  /** The `k`-th generated device is device `k + 1`. */
  lemma MockDeviceAt(tenantId: string, now: int, rand: Random, k: nat)
    requires k < 25
    ensures MockDevices(tenantId, now, rand)[k] == MockDevice(tenantId, k + 1, now, rand)
  {
  }

  /** `generateMockDevices`: a loop over i = 1 .. 25 that builds each device, fills in its counters
      and pushes it; `k` counts the devices pushed so far, so that `i = k + 1`. */
  method GenerateMockDevices(tenantId: string, now: int, rand: Random) returns (devices: seq<Device>)
    ensures devices == MockDevices(tenantId, now, rand)
  {
    ghost var all := MockDevices(tenantId, now, rand);
    devices := [];
    var k := 0;
    while k < 25
      invariant 0 <= k <= 25
      invariant devices == all[..k]
    {
      var i := k + 1;
      var ifaces := MockInterfaces(tenantId, i, rand);
      var stats := FillInterfaceStats(i, ifaces, rand);
      var d := DeviceWith(tenantId, i, now, rand, stats);
      MockDeviceAt(tenantId, now, rand, k);
      PrefixPush(all, k, d);
      devices := devices + [d];
      k := k + 1;
    }
  }

  /** The generated devices have pairwise distinct ids. */
  lemma MockDeviceIdsDistinct(tenantId: string, now: int, rand: Random)
    ensures UniqueIds(MockDevices(tenantId, now, rand))
  {
    var devices := MockDevices(tenantId, now, rand);
    forall a, b | 0 <= a < b < |devices| ensures devices[a].id != devices[b].id {
      MockDeviceIdsDiffer(tenantId, now, rand, a, b);
    }
  }

  lemma MockDeviceIdsDiffer(tenantId: string, now: int, rand: Random, a: nat, b: nat)
    requires a < b < 25
    ensures MockDevices(tenantId, now, rand)[a].id != MockDevices(tenantId, now, rand)[b].id
  {
    MockDeviceAt(tenantId, now, rand, a);
    MockDeviceAt(tenantId, now, rand, b);
    assert MockDevices(tenantId, now, rand)[a].id == DeviceId(tenantId, a + 1);
    assert MockDevices(tenantId, now, rand)[b].id == DeviceId(tenantId, b + 1);
    if DeviceId(tenantId, a + 1) == DeviceId(tenantId, b + 1) {
      DeviceIdInjective(tenantId, a + 1, b + 1);
    }
  }

  /** The hostname of device `i` starts with its role and reads, up to the first '.', as role-NN. */
  lemma HostnameCaption(i: nat)
    ensures DeviceTypes[i % 5].Name() <= Hostname(i)
    ensures BeforeFirst(Hostname(i), '.') == HostLabel(i)
  {
    var role := DeviceTypes[i % 5].Name();
    var digits := PadStart(NatToString(i), 2, '0');
    assert '.' !in role by {
      assert role in {"router", "switch", "firewall", "server", "ap"};
    }
    assert '.' !in digits by {
      PaddedRoundTrip(i, 2);
    }
    assert HostLabel(i) == role + ("-" + digits);
    assert '.' !in HostLabel(i);
    BeforeFirstOf(HostLabel(i), '.', ".example.com");
    assert role <= HostLabel(i) <= Hostname(i);
  }

  /** Device `i` has role `DeviceTypes[i % 5]` and location `Locations[i % 5]`, a hostname that starts
      with the role and reads as role-NN up to the first '.', an address whose last octet is `i`, and
      a status that is never 'unknown'. */
  lemma MockDeviceShape(tenantId: string, now: int, rand: Random, i: nat)
    requires 1 <= i <= 25
    ensures var d := MockDevice(tenantId, i, now, rand);
      d.role == DeviceTypes[i % 5] && d.location == Locations[i % 5] &&
      d.role.Name() <= d.hostname &&
      BeforeFirst(d.hostname, '.') == d.role.Name() + "-" + PadStart(NatToString(i), 2, '0') &&
      d.mgmtIp == "10.0." + NatToString(i / 10) + "." + NatToString(i) &&
      d.status != Unknown
  {
    DeviceFields(tenantId, now, rand, i);
    HostnameCaption(i);
    MgmtIpOctets(i);
  }

  lemma DeviceFields(tenantId: string, now: int, rand: Random, i: nat)
    ensures var d := MockDevice(tenantId, i, now, rand);
      d.role == DeviceTypes[i % 5] && d.location == Locations[i % 5] &&
      d.hostname == Hostname(i) && d.mgmtIp == MgmtIp(i) && d.status == MockStatus(i, rand)
  {
  }

  lemma MgmtIpOctets(i: nat)
    requires i < 256
    ensures MgmtIp(i) == "10.0." + NatToString(i / 10) + "." + NatToString(i)
  {
    assert i % 256 == i;
  }

  /** The generated fleet has no device of unknown status, so its up, down and warning tallies
      account for all 25 devices. */
  lemma MockStatusesTallied(tenantId: string, now: int, rand: Random)
    ensures var devices := MockDevices(tenantId, now, rand);
      StatusTally(devices, Up) + StatusTally(devices, Down) + StatusTally(devices, Warning) == 25
  {
    var devices := MockDevices(tenantId, now, rand);
    forall k | 0 <= k < |devices| ensures devices[k].status != Unknown {
      MockStatusKnown(tenantId, now, rand, k);
    }
    StatusTalliesExact(devices);
  }

  lemma MockStatusKnown(tenantId: string, now: int, rand: Random, k: nat)
    requires k < 25
    ensures MockDevices(tenantId, now, rand)[k].status != Unknown
  {
    MockDeviceAt(tenantId, now, rand, k);
    DeviceFields(tenantId, now, rand, k + 1);
  }

  /** Management addresses are pairwise distinct: the last octet is the device index. */
  lemma MgmtIpsDistinct(m: nat, n: nat)
    requires 1 <= m <= 25 && 1 <= n <= 25 && m != n
    ensures MgmtIp(m) != MgmtIp(n)
  {
    var pm := "10.0." + NatToString(m / 10) + ".";
    var pn := "10.0." + NatToString(n / 10) + ".";
    MgmtIpOctets(m);
    MgmtIpOctets(n);
    assert |pm| == 7 && |pn| == 7;
    if MgmtIp(m) == MgmtIp(n) {
      assert (pm + NatToString(m))[7..] == NatToString(m);
      assert (pn + NatToString(n))[7..] == NatToString(n);
      NatToStringInjective(m, n);
    }
  }

  /** The interfaces of device `i` are numbered by position and refer back to the device, and the
      counter dictionary has an entry for exactly these interfaces, carrying their utilization. */
  lemma MockInterfacesShape(tenantId: string, i: nat, rand: Random)
    ensures var ifaces := MockInterfaces(tenantId, i, rand);
      var stats := StatsMap(i, ifaces, rand);
      (forall j :: 0 <= j < |ifaces| ==>
        ifaces[j].id == InterfaceId(i, j) && ifaces[j].ifIndex == j &&
        ifaces[j].deviceId == DeviceId(tenantId, i) &&
        ifaces[j].id in stats && stats[ifaces[j].id].utilization == ifaces[j].utilization) &&
      stats.Keys == set j | 0 <= j < |ifaces| :: ifaces[j].id
  {
    var ifaces := MockInterfaces(tenantId, i, rand);
    InterfaceIdsDistinct(tenantId, i, rand);
    StatsMapKeys(i, ifaces, rand);
    forall j | 0 <= j < |ifaces|
      ensures ifaces[j].id in StatsMap(i, ifaces, rand)
      ensures StatsMap(i, ifaces, rand)[ifaces[j].id].utilization == ifaces[j].utilization
    {
      StatsMapEntries(i, ifaces, rand, j);
    }
  }

  /** Each mock device carries 4 to 27 interfaces of its own and their counters. */
  lemma MockDevicePorts(tenantId: string, now: int, rand: Random, i: nat)
    ensures var d := MockDevice(tenantId, i, now, rand);
      4 <= |d.interfaces| <= 27 &&
      (forall j :: 0 <= j < |d.interfaces| ==> d.interfaces[j].deviceId == d.id && d.interfaces[j].id in d.metrics.interfaceStats) &&
      d.metrics.interfaceStats.Keys == set j | 0 <= j < |d.interfaces| :: d.interfaces[j].id
  {
    var d := MockDevice(tenantId, i, now, rand);
    assert d.interfaces == MockInterfaces(tenantId, i, rand);
    assert d.metrics.interfaceStats == StatsMap(i, MockInterfaces(tenantId, i, rand), rand);
    assert d.id == DeviceId(tenantId, i);
    MockInterfacesShape(tenantId, i, rand);
  }

  // ---------------------------------------------------------------------
  // Alerts and anomalies
  // ---------------------------------------------------------------------

  const Severities: seq<Severity> := [Critical, High, Medium, Low, Info]
  /** The states a mock alert can be in: never silenced. */
  const MockStates: seq<AlertState> := [Firing, Resolved, Acknowledged]
  const AlertTitles: seq<string> := ["High CPU Usage", "Interface Down", "Memory Alert", "Temperature Warning", "BGP Session Down"]
  const AlertHosts: seq<string> := ["router-01", "switch-05", "firewall-02"]
  const AlertReasons: seq<string> :=
    ["sustained high resource usage", "network connectivity issue", "hardware fault", "configuration change"]
  const Runbook: string := "https://runbooks.example.com/network-alerts"

  function MockAlert(tenantId: string, k: nat, now: int, rand: Random): Alert
  {
    Alert(
      "alert-" + tenantId + "-" + NatToString(k),
      tenantId,
      "rule-" + NatToString(RandomBelow(rand(AlertSite(k, RuleRoll)), 10)),
      MockStates[RandomBelow(rand(AlertSite(k, StateRoll)), 3)],
      Severities[RandomBelow(rand(AlertSite(k, SeverityRoll)), 5)],
      now - RandomBelow(rand(AlertSite(k, StartAge)), DayMs),
      if rand(AlertSite(k, EndedRoll)) > 0.3 then Some(now - RandomBelow(rand(AlertSite(k, EndAge)), DayMs / 2)) else None,
      AlertTitles[k % 5] + " on " + AlertHosts[k % 3],
      "Alert triggered due to " + AlertReasons[k % 4],
      Some(DeviceId(tenantId, k % 10 + 1)),
      ["severity:" + Severities[RandomBelow(rand(AlertSite(k, TagSeverityRoll)), 5)].Name(), "automated"],
      Some(Runbook))
  }

  /** `generateMockAlerts`: 15 alerts. */
  function MockAlerts(tenantId: string, now: int, rand: Random): (alerts: seq<Alert>)
    ensures |alerts| == 15
  {
    seq(15, k requires 0 <= k < 15 => MockAlert(tenantId, k, now, rand))
  }

  const AnomalyMetrics: seq<string> := ["cpu.utilization", "memory.utilization", "interface.utilization", "latency.ms"]
  const AnomalySubjects: seq<string> := ["CPU usage", "memory consumption", "network traffic", "response time"]
  const AnomalySeverities: seq<AnomalySeverity> := [AnomalyHigh, AnomalyMedium, AnomalyLow]

  function MockAnomaly(tenantId: string, k: nat, now: int, rand: Random): Anomaly
  {
    Anomaly(
      "anomaly-" + tenantId + "-" + NatToString(k),
      tenantId,
      DeviceId(tenantId, k % 10 + 1),
      AnomalyMetrics[k % 4],
      now - RandomBelow(rand(AnomalySite(k, DetectAge)), DayMs / 4),
      AnomalySeverities[RandomBelow(rand(AnomalySite(k, AnomalySeverityRoll)), 3)],
      rand(AnomalySite(k, ScoreRoll)) * 100.0,
      20.0 + rand(AnomalySite(k, BaselineRoll)) * 50.0,
      70.0 + rand(AnomalySite(k, ActualRoll)) * 30.0,
      rand(AnomalySite(k, DeviationRoll)) * 20.0,
      Some(25.0 + rand(AnomalySite(k, SeasonalRoll)) * 45.0),
      "isolation-forest-v2",
      0.7 + rand(AnomalySite(k, ConfidenceRoll)) * 0.3,
      "Anomalous behavior detected in " + AnomalySubjects[k % 4])
  }

  /** `generateMockAnomalies`: 8 anomalies. */
  function MockAnomalies(tenantId: string, now: int, rand: Random): (anomalies: seq<Anomaly>)
    ensures |anomalies| == 8
  {
    seq(8, k requires 0 <= k < 8 => MockAnomaly(tenantId, k, now, rand))
  }

  /** Some generated device has this id. */
  predicate IsDeviceOf(devices: seq<Device>, id: string)
  {
    exists k :: 0 <= k < |devices| && devices[k].id == id
  }

  /** Every mock alert and anomaly points at a device that the same tenant's generator produces,
      whatever the draws of either generator. */
  lemma MockReferencesResolve(tenantId: string, now: int, rand: Random, now': int, rand': Random)
    ensures forall a :: a in MockAlerts(tenantId, now, rand) ==>
      a.deviceId.Some? && IsDeviceOf(MockDevices(tenantId, now', rand'), a.deviceId.value)
    ensures forall x :: x in MockAnomalies(tenantId, now, rand) ==>
      IsDeviceOf(MockDevices(tenantId, now', rand'), x.entityId)
  {
    MockAlertsResolve(tenantId, now, rand, now', rand');
    MockAnomaliesResolve(tenantId, now, rand, now', rand');
  }

  lemma MockAlertsResolve(tenantId: string, now: int, rand: Random, now': int, rand': Random)
    ensures forall a :: a in MockAlerts(tenantId, now, rand) ==>
      a.deviceId.Some? && IsDeviceOf(MockDevices(tenantId, now', rand'), a.deviceId.value)
  {
    var alerts := MockAlerts(tenantId, now, rand);
    forall a | a in alerts ensures a.deviceId.Some? && IsDeviceOf(MockDevices(tenantId, now', rand'), a.deviceId.value) {
      var k :| 0 <= k < 15 && alerts[k] == a;
      MockAlertFields(tenantId, now, rand, k);
      MockDeviceHasId(tenantId, now', rand', k % 10);
    }
  }

  lemma MockAnomaliesResolve(tenantId: string, now: int, rand: Random, now': int, rand': Random)
    ensures forall x :: x in MockAnomalies(tenantId, now, rand) ==>
      IsDeviceOf(MockDevices(tenantId, now', rand'), x.entityId)
  {
    var anomalies := MockAnomalies(tenantId, now, rand);
    forall x | x in anomalies ensures IsDeviceOf(MockDevices(tenantId, now', rand'), x.entityId) {
      var k :| 0 <= k < 8 && anomalies[k] == x;
      MockAnomalyFields(tenantId, now, rand, k);
      MockDeviceHasId(tenantId, now', rand', k % 10);
    }
  }

  lemma MockDeviceHasId(tenantId: string, now: int, rand: Random, k: nat)
    requires k < 25
    ensures IsDeviceOf(MockDevices(tenantId, now, rand), DeviceId(tenantId, k + 1))
  {
    MockDeviceAt(tenantId, now, rand, k);
    assert MockDevices(tenantId, now, rand)[k].id == DeviceId(tenantId, k + 1);
  }

  /** The fields of the `k`-th mock alert that do not depend on the draws' values. */
  lemma MockAlertFields(tenantId: string, now: int, rand: Random, k: nat)
    requires k < 15
    ensures var a := MockAlerts(tenantId, now, rand)[k];
      a.deviceId == Some(DeviceId(tenantId, k % 10 + 1)) && a.state in MockStates && a.runbook == Some(Runbook)
  {
    assert MockAlerts(tenantId, now, rand)[k] == MockAlert(tenantId, k, now, rand);
  }

  /** The fields of the `k`-th mock anomaly that the properties below rely on. */
  lemma MockAnomalyFields(tenantId: string, now: int, rand: Random, k: nat)
    requires k < 8
    ensures var x := MockAnomalies(tenantId, now, rand)[k];
      x.entityId == DeviceId(tenantId, k % 10 + 1) && 0.7 <= x.confidence < 1.0
  {
    assert MockAnomalies(tenantId, now, rand)[k] == MockAnomaly(tenantId, k, now, rand);
  }

  /** Mock alerts are never silenced and all carry the runbook. */
  lemma MockAlertsShape(tenantId: string, now: int, rand: Random)
    ensures forall k :: 0 <= k < |MockAlerts(tenantId, now, rand)| ==>
      MockAlerts(tenantId, now, rand)[k].state != Silenced && MockAlerts(tenantId, now, rand)[k].runbook == Some(Runbook)
  {
    forall k | 0 <= k < 15
      ensures MockAlerts(tenantId, now, rand)[k].state != Silenced && MockAlerts(tenantId, now, rand)[k].runbook == Some(Runbook)
    {
      MockAlertFields(tenantId, now, rand, k);
    }
  }

  /** Mock anomalies have a confidence in [0.7, 1). */
  lemma MockAnomaliesShape(tenantId: string, now: int, rand: Random)
    ensures forall x :: x in MockAnomalies(tenantId, now, rand) ==> 0.7 <= x.confidence < 1.0
  {
    var anomalies := MockAnomalies(tenantId, now, rand);
    forall x | x in anomalies ensures 0.7 <= x.confidence < 1.0 {
      var k :| 0 <= k < 8 && anomalies[k] == x;
      MockAnomalyFields(tenantId, now, rand, k);
    }
  }

  // ---------------------------------------------------------------------
  // The tenant and user created at start-up
  // ---------------------------------------------------------------------

  function AcmeTenant(): Tenant
  {
    Tenant("tenant-acme-corp", "ACME Corporation", [
      Site("site-dc1", "Data Center 1", ["10.0.0.0/16", "192.168.1.0/24"], "123 Tech Blvd, San Jose, CA", -121.9, 37.3),
      Site("site-dc2", "Data Center 2", ["10.1.0.0/16"], "456 Innovation Way, Austin, TX", -97.7, 30.3)],
      [])
  }

  /** The signed-in administrator belongs to the start-up tenant. */
  function AcmeAdmin(): (u: User)
    ensures u.tenantId == AcmeTenant().id && u.role == Admin
  {
    User("user-1", "admin@acme.com", "Network Admin", Admin, AcmeTenant().id, ["read", "write", "admin"])
  }

  // ---------------------------------------------------------------------
  // The store
  // ---------------------------------------------------------------------

  /** A snapshot of every field of the store. */
  datatype StoreState = StoreState(
    currentUser: Option<User>,
    currentTenant: Option<Tenant>,
    tenants: seq<Tenant>,
    devices: seq<Device>,
    alerts: seq<Alert>,
    anomalies: seq<Anomaly>,
    selectedTimeRange: TimeRange,
    selectedDevice: Option<Device>,
    sidebarOpen: bool,
    darkMode: bool,
    loading: bool)

  /** The state after `toggleDarkMode`. */
  function Toggled(s: StoreState): (t: StoreState)
    ensures t.darkMode != s.darkMode
  {
    s.(darkMode := !s.darkMode)
  }

  /** Toggling twice restores the state. */
  lemma ToggleInvolution(s: StoreState)
    ensures Toggled(Toggled(s)) == s
  {
  }

  /** The state at start-up: nobody signed in, no tenant, no data, nothing selected, and the
      24 hours up to `now` as the range. */
  function InitialState(now: int): (s: StoreState)
    ensures s.currentUser.None? && s.currentTenant.None? && s.tenants == []
    ensures s.devices == [] && s.alerts == [] && s.anomalies == []
    ensures s.selectedTimeRange.end == now && s.selectedTimeRange.end - s.selectedTimeRange.start == DayMs
    ensures s.selectedTimeRange.caption == "Last 24 Hours"
    ensures s.selectedDevice.None?
    ensures !s.loading && s.darkMode && s.sidebarOpen
  {
    StoreState(None, None, [], [], [], [], TimeRange(now - DayMs, now, "Last 24 Hours"), None, true, true, false)
  }

  class AppStore {
    var currentUser: Option<User>
    var currentTenant: Option<Tenant>
    var tenants: seq<Tenant>
    var devices: seq<Device>
    var alerts: seq<Alert>
    var anomalies: seq<Anomaly>
    var selectedTimeRange: TimeRange
    var selectedDevice: Option<Device>
    var sidebarOpen: bool
    var darkMode: bool
    var loading: bool

    function State(): StoreState
      reads this
    {
      StoreState(currentUser, currentTenant, tenants, devices, alerts, anomalies,
        selectedTimeRange, selectedDevice, sidebarOpen, darkMode, loading)
    }

    constructor (now: int)
      ensures State() == InitialState(now)
    {
      currentUser := None;
      currentTenant := None;
      tenants := [];
      devices := [];
      alerts := [];
      anomalies := [];
      selectedTimeRange := TimeRange(now - DayMs, now, "Last 24 Hours");
      selectedDevice := None;
      sidebarOpen := true;
      darkMode := true;
      loading := false;
    }

    method SetCurrentUser(user: User)
      modifies this
      ensures State() == old(State()).(currentUser := Some(user))
    {
      currentUser := Some(user);
    }

    method SetCurrentTenant(tenant: Tenant)
      modifies this
      ensures State() == old(State()).(currentTenant := Some(tenant))
    {
      currentTenant := Some(tenant);
    }

    method SetDevices(ds: seq<Device>)
      modifies this
      ensures State() == old(State()).(devices := ds)
    {
      devices := ds;
    }

    method SetAlerts(xs: seq<Alert>)
      modifies this
      ensures State() == old(State()).(alerts := xs)
    {
      alerts := xs;
    }

    method SetSelectedTimeRange(range: TimeRange)
      modifies this
      ensures State() == old(State()).(selectedTimeRange := range)
    {
      selectedTimeRange := range;
    }

    method SetSelectedDevice(device: Option<Device>)
      modifies this
      ensures State() == old(State()).(selectedDevice := device)
    {
      selectedDevice := device;
    }

    method SetSidebarOpen(open: bool)
      modifies this
      ensures State() == old(State()).(sidebarOpen := open)
    {
      sidebarOpen := open;
    }

    method ToggleDarkMode()
      modifies this
      ensures State() == Toggled(old(State()))
    {
      darkMode := !darkMode;
    }

    method SetLoading(value: bool)
      modifies this
      ensures State() == old(State()).(loading := value)
    {
      loading := value;
    }

    /** `fetchDevices`, with the simulated delay elided: raises the loading flag, and only when a
        tenant is set replaces the devices and lowers the flag again. */
    method FetchDevices(now: int, rand: Random)
      modifies this
      ensures old(currentTenant).Some? ==>
        State() == old(State()).(devices := MockDevices(old(currentTenant).value.id, now, rand), loading := false)
      ensures old(currentTenant).None? ==> State() == old(State()).(loading := true)
    {
      loading := true;
      if currentTenant.Some? {
        var generated := GenerateMockDevices(currentTenant.value.id, now, rand);
        devices := generated;
        loading := false;
      }
    }

    /** `fetchAlerts`: replaces the alerts when a tenant is set, and does nothing otherwise. */
    method FetchAlerts(now: int, rand: Random)
      modifies this
      ensures State() == if old(currentTenant).Some?
        then old(State()).(alerts := MockAlerts(old(currentTenant).value.id, now, rand))
        else old(State())
    {
      if currentTenant.Some? {
        alerts := MockAlerts(currentTenant.value.id, now, rand);
      }
    }

    /** `fetchAnomalies`: replaces the anomalies when a tenant is set, and does nothing otherwise. */
    method FetchAnomalies(now: int, rand: Random)
      modifies this
      ensures State() == if old(currentTenant).Some?
        then old(State()).(anomalies := MockAnomalies(old(currentTenant).value.id, now, rand))
        else old(State())
    {
      if currentTenant.Some? {
        anomalies := MockAnomalies(currentTenant.value.id, now, rand);
      }
    }

    /** `initialize`: signs in the administrator of the start-up tenant, makes it the only tenant,
        then fetches devices, alerts and anomalies for it. */
    method Initialize(now: int, rand: Random)
      modifies this
      ensures State() == old(State()).(
        currentUser := Some(AcmeAdmin()),
        currentTenant := Some(AcmeTenant()),
        tenants := [AcmeTenant()],
        devices := MockDevices(AcmeTenant().id, now, rand),
        alerts := MockAlerts(AcmeTenant().id, now, rand),
        anomalies := MockAnomalies(AcmeTenant().id, now, rand),
        loading := false)
    {
      currentUser := Some(AcmeAdmin());
      currentTenant := Some(AcmeTenant());
      tenants := [AcmeTenant()];
      FetchDevices(now, rand);
      FetchAlerts(now, rand);
      FetchAnomalies(now, rand);
    }
  }

  /** After start-up every alert and anomaly refers to a loaded device, the loaded device ids are
      distinct, and the user belongs to the current tenant. */
  method StartUp(now: int, rand: Random) returns (store: AppStore)
    ensures store.currentUser.Some? && store.currentTenant.Some?
    ensures store.currentUser.value.tenantId == store.currentTenant.value.id
    ensures UniqueIds(store.devices) && |store.devices| == 25
    ensures forall a :: a in store.alerts ==> a.deviceId.Some? && IsDeviceOf(store.devices, a.deviceId.value)
    ensures forall x :: x in store.anomalies ==> IsDeviceOf(store.devices, x.entityId)
  {
    store := new AppStore(now);
    store.Initialize(now, rand);
    MockDeviceIdsDistinct(AcmeTenant().id, now, rand);
    MockReferencesResolve(AcmeTenant().id, now, rand, now, rand);
  }
}
