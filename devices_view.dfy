/**
 * The devices page: badge and icon tables, the search and dropdown filter,
 * the status tiles, the per-role tally built by folding over the devices
 * into a dictionary, the uptime caption, the synthetic metric history of
 * the selected device and the truncated interface and tag lists.
 */
module DevicesView {
  import opened Common
  import opened Domain

  // ---------------------------------------------------------------------
  // Badge and icon tables
  // ---------------------------------------------------------------------

  /** `getStatusVariant`. */
  function StatusVariant(status: string): (variant: string)
    ensures variant == "success" <==> status == "up"
    ensures variant == "danger" <==> status == "down"
    ensures variant == "warning" <==> status == "warning"
    ensures variant == "secondary" <==> status !in {"up", "down", "warning"}
  {
    match status
    case "up" => "success"
    case "down" => "danger"
    case "warning" => "warning"
    case _ => "secondary"
  }

  datatype DeviceIcon = RouterGlyph | ServerGlyph | ShieldGlyph | WifiGlyph | PrinterGlyph

  /** `getDeviceIcon`: switches, servers and unknown roles all use the server icon. */
  function DeviceIconFor(role: string): (icon: DeviceIcon)
    ensures icon == RouterGlyph <==> role == "router"
    ensures icon == ShieldGlyph <==> role == "firewall"
    ensures icon == WifiGlyph <==> role == "ap"
    ensures icon == PrinterGlyph <==> role == "printer"
    ensures icon == ServerGlyph <==> role !in {"router", "firewall", "ap", "printer"}
  {
    match role
    case "router" => RouterGlyph
    case "switch" => ServerGlyph
    case "firewall" => ShieldGlyph
    case "server" => ServerGlyph
    case "ap" => WifiGlyph
    case "printer" => PrinterGlyph
    case _ => ServerGlyph
  }

  datatype StatusIcon = CheckIcon | TriangleIcon | ClockIcon | ActivityIcon

  /** `getStatusIcon`: one icon per known status, the activity icon otherwise. */
  function StatusIconFor(status: string): (icon: StatusIcon)
    ensures icon == CheckIcon <==> status == "up"
    ensures icon == TriangleIcon <==> status == "down"
    ensures icon == ClockIcon <==> status == "warning"
    ensures icon == ActivityIcon <==> status !in {"up", "down", "warning"}
  {
    match status
    case "up" => CheckIcon
    case "down" => TriangleIcon
    case "warning" => ClockIcon
    case _ => ActivityIcon
  }

  // ---------------------------------------------------------------------
  // Filtering
  // ---------------------------------------------------------------------

  /** The search box and the role and status dropdowns; "all" is the dropdowns' wildcard. */
  datatype DeviceFilter = DeviceFilter(search: string, role: string, status: string)

  /** Hostname and location are searched ignoring case; the management address is searched as typed. */
  predicate MatchesSearch(d: Device, search: string)
  {
    Contains(ToLower(d.hostname), ToLower(search))
    || Contains(d.mgmtIp, search)
    || Contains(ToLower(d.location), ToLower(search))
  }

  predicate DeviceMatches(f: DeviceFilter, d: Device)
  {
    MatchesSearch(d, f.search)
    && (f.role == "all" || d.role.Name() == f.role)
    && (f.status == "all" || d.status.Name() == f.status)
  }

  /** The filter as the predicate handed to `filter`. */
  function Matcher(f: DeviceFilter): Device -> bool
  {
    d => DeviceMatches(f, d)
  }

  /** `filteredDevices`: the devices passing the search and both dropdowns, in their original order. */
  function FilteredDevices(devices: seq<Device>, f: DeviceFilter): (r: seq<Device>)
    ensures IsSubsequence(r, devices)
    ensures forall d :: d in r <==> d in devices && DeviceMatches(f, d)
  {
    var r := Filter(devices, Matcher(f));
    assert forall d :: d in r <==> d in devices && DeviceMatches(f, d) by {
      forall d ensures d in r <==> d in devices && DeviceMatches(f, d) {
        FilterMembership(devices, Matcher(f), d);
      }
    }
    r
  }

  /** An empty search with both dropdowns on "all" shows every device. */
  lemma NoFilterShowsAll(devices: seq<Device>)
    ensures FilteredDevices(devices, DeviceFilter("", "all", "all")) == devices
  {
    var f := DeviceFilter("", "all", "all");
    forall n | 0 <= n < |devices| ensures DeviceMatches(f, devices[n]) {
      ContainsEmpty(ToLower(devices[n].hostname));
    }
    FilterAll(devices, Matcher(f));
  }

  /** Only the address search is case-sensitive: a device whose address alone contains "X" is
      found by "X" but not by "x". */
  lemma AddressSearchIsCaseSensitive()
    ensures var d := Device("dev-1", "t", "a", "X", "m", Router, "b", [], Up, "c", 0, 0, [],
                            DeviceMetrics(0.0, 0.0, 0.0, 0, map[]));
      MatchesSearch(d, "X") && !MatchesSearch(d, "x")
  {
    assert ToLower("x") == "x" && ToLower("X") == "x";
    assert ToLower("a") == "a" && ToLower("b") == "b";
    assert !Contains("", "x");
    assert "a"[1..] == "" && "b"[1..] == "" && "X"[1..] == "";
    assert "x"[0] != "a"[0] && "x"[0] != "b"[0] && "x"[0] != "X"[0];
    assert !Contains("a", "x") && !Contains("b", "x") && !Contains("X", "x");
  }

  /** Picking a role in place of "all" can only shorten the list. */
  lemma RoleNarrows(devices: seq<Device>, f: DeviceFilter, role: string)
    ensures |FilteredDevices(devices, f.(role := role))| <= |FilteredDevices(devices, f.(role := "all"))|
  {
    var wide := f.(role := "all");
    var narrow := f.(role := role);
    forall d | Matcher(narrow)(d) ensures Matcher(wide)(d) {
      assert DeviceMatches(narrow, d);
    }
    FilterNarrows(devices, Matcher(wide), Matcher(narrow));
  }

  // ---------------------------------------------------------------------
  // Tallies
  // ---------------------------------------------------------------------

  datatype DeviceStats = DeviceStats(total: nat, online: nat, offline: nat, warning: nat)

  /** `deviceStats`: online, offline and warning never add up to more than the total, since
      devices of unknown status are in no tile. */
  function Stats(devices: seq<Device>): (s: DeviceStats)
    ensures s.total == |devices|
    ensures s.online + s.offline + s.warning <= s.total
  {
    StatusTalliesBounded(devices);
    DeviceStats(|devices|, StatusTally(devices, Up), StatusTally(devices, Down), StatusTally(devices, Warning))
  }

  /** The number of devices with role `r`. */
  function RoleCount(devices: seq<Device>, r: Role): nat
  {
    if devices == [] then 0
    else RoleCount(devices[..|devices| - 1], r) + if devices[|devices| - 1].role == r then 1 else 0
  }

  /** A role is counted at least once iff some device has it. */
  lemma {:induction false} RoleCountPositive(devices: seq<Device>, r: Role)
    ensures RoleCount(devices, r) > 0 <==> exists i :: 0 <= i < |devices| && devices[i].role == r
  {
    if devices != [] {
      var init := devices[..|devices| - 1];
      RoleCountPositive(init, r);
      if exists i :: 0 <= i < |init| && init[i].role == r {
        var i :| 0 <= i < |init| && init[i].role == r;
        assert devices[i].role == r;
      }
      if exists i :: 0 <= i < |devices| && devices[i].role == r {
        var i :| 0 <= i < |devices| && devices[i].role == r;
        if i < |init| {
          assert init[i].role == r;
        }
      }
    }
  }

  /** The seven role counts add up to the number of devices. */
  lemma {:induction false} RoleCountsSum(devices: seq<Device>)
    ensures RoleCount(devices, Router) + RoleCount(devices, Switch) + RoleCount(devices, Firewall)
      + RoleCount(devices, Server) + RoleCount(devices, Ap) + RoleCount(devices, Printer)
      + RoleCount(devices, Iot) == |devices|
  {
    if devices != [] {
      RoleCountsSum(devices[..|devices| - 1]);
    }
  }

  /** `roleStats`: folds over the devices, bumping the entry of each device's role in a dictionary
      that starts empty. Keys are roles present among the devices, and each maps to its count. */
  method RoleStats(devices: seq<Device>) returns (acc: map<Role, nat>)
    ensures forall r :: r in acc <==> RoleCount(devices, r) > 0
    ensures forall r :: r in acc ==> acc[r] == RoleCount(devices, r)
  {
    acc := map[];
    var i := 0;
    while i < |devices|
      invariant 0 <= i <= |devices|
      invariant forall r :: r in acc <==> RoleCount(devices[..i], r) > 0
      invariant forall r :: r in acc ==> acc[r] == RoleCount(devices[..i], r)
    {
      var role := devices[i].role;
      acc := acc[role := (if role in acc then acc[role] else 0) + 1];
      assert devices[..i + 1][..i] == devices[..i];
      i := i + 1;
    }
    assert devices[..i] == devices;
  }

  // ---------------------------------------------------------------------
  // Details panel
  // ---------------------------------------------------------------------

  /** The uptime caption: whole days, then the whole hours left over. */
  function UptimeSplit(uptime: nat): (dh: (nat, nat))
  {
    (uptime / 86400, (uptime % 86400) / 3600)
  }

  /** The hours are below a day, and the caption never overstates the uptime, falling short of it
      by less than an hour. */
  lemma UptimeSplitBounds(uptime: nat)
    ensures UptimeSplit(uptime).1 <= 23
    ensures UptimeSplit(uptime).0 * 86400 + UptimeSplit(uptime).1 * 3600 <= uptime
    ensures uptime < UptimeSplit(uptime).0 * 86400 + UptimeSplit(uptime).1 * 3600 + 3600
  {
    var days := uptime / 86400;
    var rest := uptime % 86400;
    assert uptime == days * 86400 + rest;
    assert rest == (rest / 3600) * 3600 + rest % 3600;
  }

  datatype MetricSample = MetricSample(timestamp: int, cpu: real, memory: real, temperature: real)

  /** The jitter draws of the three metrics, indexed by the hour offset. */
  datatype JitterDraws = JitterDraws(cpu: nat -> Unit01, memory: nat -> Unit01, temperature: nat -> Unit01)

  function SampleAt(d: Device, i: nat, now: int, draws: JitterDraws): MetricSample
  {
    MetricSample(now - i * 3600000,
      d.metrics.cpuUtilization + (draws.cpu(i) - 0.5) * 20.0,
      d.metrics.memoryUtilization + (draws.memory(i) - 0.5) * 15.0,
      d.metrics.temperature + (draws.temperature(i) - 0.5) * 5.0)
  }

  /** The history of the selected device, oldest first; nothing without a selection. */
  function DeviceHistory(selected: Option<Device>, now: int, draws: JitterDraws): (data: seq<MetricSample>)
    ensures selected.None? ==> data == []
    ensures selected.Some? ==>
      (|data| == 25 && forall k :: 0 <= k < 25 ==> data[k] == SampleAt(selected.value, 24 - k, now, draws))
  {
    if selected.None? then []
    else seq(25, k requires 0 <= k < 25 => SampleAt(selected.value, 24 - k, now, draws))
  }

  /** `generateDeviceMetrics`: returns early without a selection, otherwise pushes one sample per hour
      for `i` from 24 down to 0. */
  method GenerateDeviceMetrics(selected: Option<Device>, now: int, draws: JitterDraws)
    returns (data: seq<MetricSample>)
    ensures data == DeviceHistory(selected, now, draws)
  {
    if selected.None? {
      return [];
    }
    data := [];
    var i: int := 24;
    while i >= 0
      invariant -1 <= i <= 24
      invariant |data| == 24 - i
      invariant forall k :: 0 <= k < |data| ==> data[k] == SampleAt(selected.value, 24 - k, now, draws)
    {
      data := data + [SampleAt(selected.value, i, now, draws)];
      i := i - 1;
    }
  }

  /** Every sample stays within half the jitter range of the device's current reading. */
  lemma HistoryNearCurrent(d: Device, now: int, draws: JitterDraws)
    ensures forall s :: s in DeviceHistory(Some(d), now, draws) ==>
      d.metrics.cpuUtilization - 10.0 <= s.cpu < d.metrics.cpuUtilization + 10.0 &&
      d.metrics.memoryUtilization - 7.5 <= s.memory < d.metrics.memoryUtilization + 7.5 &&
      d.metrics.temperature - 2.5 <= s.temperature < d.metrics.temperature + 2.5
  {
    var data := DeviceHistory(Some(d), now, draws);
    forall s | s in data
      ensures d.metrics.cpuUtilization - 10.0 <= s.cpu < d.metrics.cpuUtilization + 10.0
      ensures d.metrics.memoryUtilization - 7.5 <= s.memory < d.metrics.memoryUtilization + 7.5
      ensures d.metrics.temperature - 2.5 <= s.temperature < d.metrics.temperature + 2.5
    {
      var k :| 0 <= k < |data| && data[k] == s;
      assert s == SampleAt(d, 24 - k, now, draws);
    }
  }

  /** The interface table: the first ten interfaces. */
  function InterfaceRows(d: Device): (rows: seq<NetworkInterface>)
    ensures rows <= d.interfaces
    ensures |rows| == if |d.interfaces| < 10 then |d.interfaces| else 10
  {
    Take(d.interfaces, 10)
  }

  /** The tag chips of a device card: none without tags, otherwise the first two and a "+n" chip. */
  function TagChips(d: Device): (chips: seq<string>)
    ensures d.tags == [] ==> chips == []
    ensures |d.tags| <= 2 ==> chips == d.tags
    ensures |d.tags| > 2 ==> chips == d.tags[..2] + ["+" + NatToString(|d.tags| - 2)]
  {
    if d.tags == [] then []
    else
      var t := Truncate(d.tags, 2);
      t.shown + if t.hidden > 0 then ["+" + NatToString(t.hidden)] else []
  }
}
