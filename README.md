# netops-pro dashboard core, modelled in Dafny

netops-pro is a multi-tenant network-monitoring dashboard. A global store holds the signed-in
user, the tenant, the devices with their interfaces and counters, the alerts and anomalies, and
the selected time range. Several views read from that store:

- the overview (status tallies, trend cards, a star-shaped mini topology, a time series);
- the device list and the device details;
- the alert list;
- the topology page and its map component;
- the AI-analytics page (a forecast, an anomaly trace, insights, a model table);
- the page header (time-range selector, alert badges).

This project models the data-shaping rules of those views and of the store: which devices,
alerts and edges are produced, filtered, counted and truncated, how values are classified into
badge variants, colours and icons, how units are scaled, and how the store and the map's drag
handlers change state. It proves what those rules promise.

Modules, one per source file:

| module | file | models |
|---|---|---|
| `Common` | common.dfy | order-preserving filters, truncation, ASCII lower-casing, substring search, decimal rendering and `padStart`, `Math.round` |
| `Domain` | domain.dfy | the records and string unions of `src/types/index.ts`, plus the active/critical alert filters |
| `Store` | store.dfy | the mock generators, the start-up state and the `AppStore` class with its setters and fetches |
| `Header` | header.dfy | time-range presets, the caption lookup, the bell and footer badges |
| `OverviewView` | overview_view.dfy | the time series, grid nodes, star edges, trend rules, recent-alert and anomaly lists |
| `AlertsView` | alerts_view.dfy | variants, icons, the alert filter, tallies, actions, tags |
| `DevicesView` | devices_view.dfy | variants, icons, the device filter, tallies, the role dictionary, uptime, the metric history |
| `TopologyView` | topology_view.dfy | the node projection, the core chain and access links, link statistics |
| `TopologyMap` | topology_map.dfy | colours, icons, glyphs, labels and overlays, the drawn scene, drag pinning, node selection |
| `MetricChart` | metric_chart.dfy | `formatValue`, the chart kind and the series drawn |
| `AIAnalytics` | ai_analytics.dfy | the forecast and anomaly series, impacts, accuracy tiers, the model-name split |

Conventions:

- `Math.random()` is a parameter: a function from a draw index to a real in [0, 1) (`Unit01`).
  One such stream is kept per call site, so independent draws stay independent.
- `Math.sin` is a parameter `sin: real -> real`. Lemmas about values assume it stays in [-1, 1].
- `Date.now()` is a parameter `now: int`, in milliseconds.
- Numbers are exact reals or unbounded integers.
- A loop that pushes onto an array becomes a `method` with a `while` loop. It is proved equal to
  a function that states the result. The lemmas about the result are stated on that function.
- The store is the class `Store.AppStore`, whose fields are the store's fields except `dashboards` and `forecasts` (see "## Left out").
  `State()` takes a snapshot of them, so that each setter can state that only its own field changed.
- A map node being dragged is the class `TopologyMap.SimNode`, with `x`, `y` and a pin
  (the pair `fx`, `fy`). The force simulation is reduced to its `alphaTarget`.

One behaviour worth knowing is stated as the lemma `Header.InitialCaptionIsNoPreset`:

- The store starts with the caption 'Last 24 Hours'.
- The header's preset is 'Last 24 hours', with a lower-case h.
- The selector's lookup is exact, so the starting range matches no preset, although its span is
  exactly the span of that preset.

## Model

| member | source | states |
|---|---|---|
| Common.Filter | src/views/AlertsView.tsx:80-87 | `Array.filter`: the result is a subsequence of the input, every kept element satisfies the predicate, and each element is kept with its full multiplicity exactly when it satisfies the predicate |
| Common.FilterPartition | src/views/TopologyView.tsx:74-75 | filters by two complementary predicates split a list: their lengths add up to the list's length |
| Common.Truncate | src/views/AlertsView.tsx:366-371 | "first n and k more": the shown part is a prefix of at most n items, shown plus hidden is the whole length, and something is hidden exactly when the list is longer than n |
| Common.ToLowerIdempotent | src/views/AlertsView.tsx:81-84 | lower-casing an already lower-cased string changes nothing |
| Common.BeforeFirst | src/views/TopologyView.tsx:19 | `split('.')[0]`: a prefix of the string containing no '.', followed in the string by a '.' when it is shorter than the string |
| Common.PadStart | src/store/index.ts:12 | `padStart(width, c)`: the result has the larger of the width and the input's length, ends with the input and is filled with `c` in front |
| Common.NatToStringRoundTrip | src/store/index.ts:12 | reading back the decimal rendering of n gives n |
| Common.PaddedRoundTrip | src/store/index.ts:12 | a zero-padded decimal is all digits and reads back as the number it renders |
| Common.PaddedInjective | src/store/index.ts:12 | two numbers with the same zero-padded rendering are equal |
| Common.LastN | src/views/AlertsView.tsx:359-364 | `slice(-n)`: the last min(n, length) characters of the string |
| Common.Round | src/components/charts/TopologyMap.tsx:132 | `Math.round`: the integer within half a unit of x, rounding halves up |
| Domain.ActiveAlerts | src/views/OverviewView.tsx:51 | exactly the firing alerts, in order |
| Domain.CriticalAlerts | src/views/OverviewView.tsx:52 | exactly the critical ones among the given alerts, in order |
| Domain.CriticalAreActive | src/components/layout/Header.tsx:32-33 | every critical alert is firing and of critical severity, and there are no more critical alerts than active ones |
| Domain.StatusTalliesBounded | src/views/OverviewView.tsx:47-49 | the up, down and warning tallies add up to at most the number of devices |
| Domain.StatusTalliesExact | src/views/OverviewView.tsx:47-49 | when no device has status 'unknown', the three tallies add up to exactly the number of devices |
| Domain.FilterKeepsUniqueIds | src/views/TopologyView.tsx:31-32 | filtering a device list whose ids are pairwise distinct leaves ids that are pairwise distinct |
| Store.DeviceIdInjective | src/store/index.ts:12 | two device indices with the same `dev-<tenant>-<NNN>` id are equal |
| Store.MockStatus | src/store/index.ts:20 | a generated status is never 'unknown' |
| Store.MockInterfaces | src/store/index.ts:24-36 | 4 to 27 interfaces, the j-th built from index j |
| Store.FillInterfaceStats | src/store/index.ts:47-57 | the `forEach` writes leave exactly the counter dictionary the stats function describes |
| Store.StatsMapKeys | src/store/index.ts:47-57 | the counter dictionary's keys are exactly the interface ids |
| Store.StatsMapEntries | src/store/index.ts:47-57 | with distinct interface ids, each interface's entry holds its own counters and its utilization |
| Store.InterfaceIdsDistinct | src/store/index.ts:25 | the interface ids `if-i-j` of one device are pairwise distinct |
| Store.MockInterfacesShape | src/store/index.ts:24-57 | interface j has ifIndex j and refers back to its device; the counter dictionary has an entry for exactly these interfaces, carrying their utilization |
| Store.MockDevicePorts | src/store/index.ts:24-57 | each device carries 4 to 27 interfaces of its own and their counters |
| Store.MockDevices | src/store/index.ts:5-63 | 25 devices |
| Store.MockDeviceAt | src/store/index.ts:10-59 | the k-th generated device is device k + 1 |
| Store.GenerateMockDevices | src/store/index.ts:5-63 | the loop over i = 1 .. 25 builds exactly the 25 devices of the specification function |
| Store.MockDeviceIdsDistinct | src/store/index.ts:12 | the generated devices have pairwise distinct ids |
| Store.MockDeviceIdsDiffer | src/store/index.ts:12 | devices at two different positions have different ids |
| Store.HostnameCaption | src/store/index.ts:14 | the hostname starts with the device's role and reads as `<role>-NN` up to its first '.' |
| Store.MockDeviceShape | src/store/index.ts:12-20 | device i has role `deviceTypes[i % 5]`, location `locations[i % 5]`, a hostname starting with its role, an address ending in i, and a known status |
| Store.DeviceFields | src/store/index.ts:14-20 | device i's role and location cycle through the five roles and locations by i mod 5, and its hostname, address and status are those of index i |
| Store.MgmtIpOctets | src/store/index.ts:15 | the address is `10.0.<i div 10>.<i>` for every index the generator uses |
| Store.MgmtIpsDistinct | src/store/index.ts:15 | two different device indices get two different management addresses |
| Store.MockStatusesTallied | src/store/index.ts:20 | the generated fleet has no device of unknown status, so its up, down and warning tallies add up to 25 |
| Store.MockStatusKnown | src/store/index.ts:20 | each generated device's status is up, warning or down |
| Store.MockAlerts | src/store/index.ts:65-90 | 15 alerts |
| Store.MockAnomalies | src/store/index.ts:92-109 | 8 anomalies |
| Store.MockReferencesResolve | src/store/index.ts:78 | every mock alert and anomaly names a device that the same tenant's device generator produces, whatever the draws of either generator |
| Store.MockAlertsResolve | src/store/index.ts:78 | every mock alert's device id is the id of a generated device of the same tenant |
| Store.MockAnomaliesResolve | src/store/index.ts:96 | every mock anomaly's entity id is the id of a generated device of the same tenant |
| Store.MockDeviceHasId | src/store/index.ts:12 | device k + 1's id occurs among the generated devices |
| Store.MockAlertFields | src/store/index.ts:70-81 | alert k has device suffix (k mod 10) + 1, a state among firing, resolved and acknowledged, and the runbook |
| Store.MockAnomalyFields | src/store/index.ts:96-105 | anomaly k has entity suffix (k mod 10) + 1 and a confidence in [0.7, 1) |
| Store.MockAlertsShape | src/store/index.ts:67-81 | no mock alert is silenced and all carry the runbook |
| Store.MockAnomaliesShape | src/store/index.ts:105 | every mock anomaly's confidence lies in [0.7, 1) |
| Store.AcmeAdmin | src/store/index.ts:261-268 | the signed-in user is an administrator of the start-up tenant |
| Store.Toggled | src/store/index.ts:179 | toggling flips the dark-mode flag |
| Store.ToggleInvolution | src/store/index.ts:179 | toggling twice restores the state |
| Store.InitialState | src/store/index.ts:151-169 | nobody signed in, no tenant, no tenants, devices, alerts or anomalies, no selected device, not loading, dark mode and sidebar on, and the selected range 'Last 24 Hours' ending now and spanning exactly one day |
| Store.AppStore.constructor | src/store/index.ts:151-169 | a new store holds the initial state |
| Store.AppStore.SetCurrentUser | src/store/index.ts:172 | only the user changes |
| Store.AppStore.SetCurrentTenant | src/store/index.ts:173 | only the tenant changes |
| Store.AppStore.SetDevices | src/store/index.ts:174 | only the devices change |
| Store.AppStore.SetAlerts | src/store/index.ts:175 | only the alerts change |
| Store.AppStore.SetSelectedTimeRange | src/store/index.ts:176 | only the selected range changes |
| Store.AppStore.SetSelectedDevice | src/store/index.ts:177 | only the selected device changes |
| Store.AppStore.SetSidebarOpen | src/store/index.ts:178 | only the sidebar flag changes |
| Store.AppStore.ToggleDarkMode | src/store/index.ts:179 | the new state is the toggled old state |
| Store.AppStore.SetLoading | src/store/index.ts:180 | only the loading flag changes |
| Store.AppStore.FetchDevices | src/store/index.ts:183-191 | with a tenant, the devices become that tenant's mock devices and loading ends false; without one, only the loading flag changes, to true, and stays so |
| Store.AppStore.FetchAlerts | src/store/index.ts:193-199 | with a tenant, only the alerts change, to that tenant's mock alerts; without one, nothing changes |
| Store.AppStore.FetchAnomalies | src/store/index.ts:201-207 | with a tenant, only the anomalies change, to that tenant's mock anomalies; without one, nothing changes |
| Store.AppStore.Initialize | src/store/index.ts:210-280 | the user is the administrator, the tenant is the start-up tenant and the only tenant, and devices, alerts and anomalies are that tenant's mock data, loading off |
| Store.StartUp | src/store/index.ts:210-280 | after start-up, the user belongs to the current tenant, 25 devices with distinct ids are loaded, and every alert and anomaly refers to a loaded device |
| Header.PresetsOrdered | src/components/layout/Header.tsx:35-41 | the presets reach strictly further back in selector order, and their captions are distinct |
| Header.RangeFor | src/components/layout/Header.tsx:43-49 | a preset's range ends now, starts its minutes earlier, so no later than it ends, and carries the preset's caption |
| Header.FindPreset | src/components/layout/Header.tsx:96 | `find` by caption: the first preset with that caption, and none exactly when no preset has it |
| Header.OnRangeSelected | src/components/layout/Header.tsx:94-99 | a caption matching no preset leaves the range unchanged; a matching caption gives that preset's range as of now |
| Header.SelectionRoundTrip | src/components/layout/Header.tsx:94-99 | choosing preset k yields a range with k's caption and span, and looking that caption up finds k again |
| Header.InitialCaptionIsNoPreset | src/store/index.ts:161-165 | the store's starting caption spans the same day as the 'Last 24 hours' preset but differs from it in case, so the lookup finds no preset and re-selecting it changes nothing |
| Header.CriticalCountPositive | src/components/layout/Header.tsx:32-33 | the critical count is positive exactly when some alert is both firing and critical |
| Header.BellBadge | src/components/layout/Header.tsx:123-130 | the bell badge is shown exactly when there are active alerts, counts them, and is 'danger' exactly when one is critical, 'warning' otherwise |
| Header.FooterBadges | src/components/layout/Header.tsx:155-166 | no badge without active alerts; otherwise a warning badge with the active count, then a danger badge with the critical count exactly when some firing alert is critical |
| Header.BellAgreesWithFooter | src/components/layout/Header.tsx:123-166 | the bell is shown exactly when the footer has a badge, is 'danger' exactly when the footer has two, and counts what the first footer badge writes |
| OverviewView.TimeSeries | src/views/OverviewView.tsx:22-42 | h + 1 points, the k-th at hour offset h − k |
| OverviewView.GenerateTimeSeriesData | src/views/OverviewView.tsx:22-42 | the loop from `hours` down to 0 pushes exactly the series of the specification function |
| OverviewView.TimeSeriesShape | src/views/OverviewView.tsx:26-38 | hourly points ending at now; no anomaly without the flag; ordinary values in [10, 60) and anomalous ones in [50, 120) |
| OverviewView.GridPositionsDistinct | src/views/OverviewView.tsx:69-72 | distinct indices get distinct cells of the 4-column grid |
| OverviewView.OverviewNodes | src/views/OverviewView.tsx:58-73 | the first ten devices at most, node i keeping device i's id and status, placed at grid cell i |
| OverviewView.OverviewPositionsDistinct | src/views/OverviewView.tsx:58-73 | no two overview nodes share a position |
| OverviewView.StarEdges | src/views/OverviewView.tsx:75-84 | n − 1 edges for n nodes, edge k joining node 0 to node k + 1 with id `edge-<k>` and bandwidth 1000 |
| OverviewView.StarEdgesWellFormed | src/views/OverviewView.tsx:75-84 | every star edge joins two drawn nodes, and edge ids are pairwise distinct |
| OverviewView.StarReachesEachNodeOnce | src/views/OverviewView.tsx:75-84 | with distinct device ids, every shown device but the first is the target of exactly one edge |
| OverviewView.HealthTrendThreshold | src/views/OverviewView.tsx:116-118 | the trend is up exactly when 10·up > 9·total; an empty fleet trends down, a non-empty all-up fleet up |
| OverviewView.AlertsTrend | src/views/OverviewView.tsx:108-113 | the Active Alerts card trends down exactly when some firing alert is critical |
| OverviewView.CpuTrend | src/views/OverviewView.tsx:122-126 | the CPU card trends down exactly when there are devices and their average CPU exceeds 80 |
| OverviewView.CpuSumBelow | src/views/OverviewView.tsx:54 | when every device is above a bound, the CPU sum is above the bound times the count |
| OverviewView.AllHotMeansCpuTrendDown | src/views/OverviewView.tsx:122-126 | a non-empty fleet whose every device is above 80% CPU trends down |
| OverviewView.RecentAlerts | src/views/OverviewView.tsx:132 | the first five active alerts, in order, each firing and from the list |
| OverviewView.RecentAlertVariant | src/views/OverviewView.tsx:289 | 'danger' exactly for critical alerts, 'warning' otherwise |
| OverviewView.ListedAnomalies | src/views/OverviewView.tsx:329 | a prefix of at most four anomalies, exactly four when there are at least four |
| AlertsView.SeverityVariant | src/views/AlertsView.tsx:34-47 | critical, high, medium, low map to danger, warning, info, secondary, each exactly; every other severity to default |
| AlertsView.StateVariant | src/views/AlertsView.tsx:49-62 | firing, acknowledged, resolved, silenced map to danger, warning, success, secondary, each exactly; anything else to default |
| AlertsView.VariantsOfDeclaredValues | src/views/AlertsView.tsx:34-62 | distinct alert states get distinct variants, none of them default, while the declared severity 'info' falls back to default |
| AlertsView.StateIconFor | src/views/AlertsView.tsx:64-77 | one icon per state, each exactly for its state: triangle for firing, eye for acknowledged, check for resolved, cross for silenced, and the bell exactly for any other state |
| AlertsView.FilteredAlerts | src/views/AlertsView.tsx:80-87 | an order-preserving subsequence holding exactly the alerts that pass the case-insensitive search over title or description and both dropdowns |
| AlertsView.NoFilterShowsAll | src/views/AlertsView.tsx:80-87 | an empty search with both dropdowns on 'all' shows every alert |
| AlertsView.SearchIgnoresCase | src/views/AlertsView.tsx:81-84 | typing the search in lower case shows the same list |
| AlertsView.SeverityNarrows | src/views/AlertsView.tsx:85 | choosing a severity instead of 'all' never lengthens the list |
| AlertsView.EmptyMessage | src/views/AlertsView.tsx:617-625 | a message only for an empty list: 'No alerts match your filters' when a filter is set, 'No active alerts' otherwise |
| AlertsView.NoActiveAlertsMessage | src/views/AlertsView.tsx:617-625 | with no filter set, 'No active alerts' appears exactly when there are no alerts |
| AlertsView.Stats | src/views/AlertsView.tsx:89-95 | the total is the alert count, and the critical tile never exceeds the firing tile |
| AlertsView.StateTilesBounded | src/views/AlertsView.tsx:89-95 | firing, acknowledged and resolved add up to at most the total, and to exactly the total when nothing is silenced |
| AlertsView.TilesAgreeWithActiveAlerts | src/views/AlertsView.tsx:89-95 | the firing tile counts the active alerts and the critical tile the critical active ones, as in the header |
| AlertsView.Actions | src/views/AlertsView.tsx:378-427 | Acknowledge and Silence exactly for firing alerts, Resolve exactly for acknowledged ones, Runbook exactly when a runbook is set |
| AlertsView.TagCaption | src/views/AlertsView.tsx:366-373 | no caption without tags; otherwise a prefix of at most two tags plus a count of the rest |
| AlertsView.MoreText | src/views/AlertsView.tsx:369-371 | '+n more' exactly when n > 0 tags are hidden |
| AlertsView.DeviceCaption | src/views/AlertsView.tsx:359-364 | the last six characters of the device id, shown exactly when the alert has a non-empty device id |
| DevicesView.StatusVariant | src/views/DevicesView.tsx:37-48 | up, down, warning map to success, danger, warning, each exactly; anything else to secondary |
| DevicesView.DeviceIconFor | src/views/DevicesView.tsx:18-35 | each icon exactly for its role: router, shield for firewall, wifi for ap, printer for printer, and the server icon exactly for every other role (switch, server and unknown roles) |
| DevicesView.StatusIconFor | src/views/DevicesView.tsx:50-61 | each icon exactly for its status: check for up, triangle for down, clock for warning, and the activity icon exactly for any other status |
| DevicesView.FilteredDevices | src/views/DevicesView.tsx:64-72 | an order-preserving subsequence holding exactly the devices that pass the search and both dropdowns |
| DevicesView.NoFilterShowsAll | src/views/DevicesView.tsx:64-72 | an empty search with both dropdowns on 'all' shows every device |
| DevicesView.AddressSearchIsCaseSensitive | src/views/DevicesView.tsx:65-68 | hostname and location are searched in lower case but the address is not: an address holding 'X' is found by 'X' and not by 'x' |
| DevicesView.RoleNarrows | src/views/DevicesView.tsx:69 | choosing a role instead of 'all' never lengthens the list |
| DevicesView.Stats | src/views/DevicesView.tsx:74-79 | the total is the device count, and online, offline and warning add up to at most it |
| DevicesView.RoleCountPositive | src/views/DevicesView.tsx:81-84 | a role is counted at least once exactly when some device has it |
| DevicesView.RoleCountsSum | src/views/DevicesView.tsx:81-84 | the counts of the seven roles add up to the number of devices |
| DevicesView.RoleStats | src/views/DevicesView.tsx:81-84 | the dictionary's keys are exactly the roles present, each mapped to its count |
| DevicesView.UptimeSplitBounds | src/views/DevicesView.tsx:451 | the hours are at most 23, and days and hours together fall short of the uptime by less than an hour |
| DevicesView.DeviceHistory | src/views/DevicesView.tsx:87-104 | nothing without a selection; otherwise 25 hourly samples of the selected device ending at now |
| DevicesView.GenerateDeviceMetrics | src/views/DevicesView.tsx:87-104 | the early return and the loop from 24 down to 0 produce exactly the history of the specification function |
| DevicesView.HistoryNearCurrent | src/views/DevicesView.tsx:93-100 | every sample lies within half the jitter range of the device's current CPU, memory and temperature |
| DevicesView.InterfaceRows | src/views/DevicesView.tsx:531 | the first ten interfaces at most, in order |
| DevicesView.TagChips | src/views/DevicesView.tsx:351-363 | no chip without tags, all tags when there are at most two, otherwise the first two and '+n' for the rest |
| TopologyView.NodeFor | src/views/TopologyView.tsx:16-27 | a node keeps the device's id, status and role, and its label is the hostname up to the first '.' |
| TopologyView.TopologyNodes | src/views/TopologyView.tsx:16-27 | one node per device, in input order |
| TopologyView.NodeIdsAreDeviceIds | src/views/TopologyView.tsx:16-17 | the node ids are exactly the device ids |
| TopologyView.CoreDevices | src/views/TopologyView.tsx:31 | a prefix of the routers and switches, of length min(3, their count) |
| TopologyView.AccessDevices | src/views/TopologyView.tsx:32 | an order-preserving subsequence holding exactly the devices that are neither router nor switch |
| TopologyView.HubFor | src/views/TopologyView.tsx:50-51 | the access device's hub is core[j mod k], and there is none when there is no core device |
| TopologyView.PushCoreChain | src/views/TopologyView.tsx:35-46 | the `for` loop pushes exactly the chain of the specification function |
| TopologyView.PushAccessLinks | src/views/TopologyView.tsx:49-63 | the `forEach` appends exactly the access links of the specification function |
| TopologyView.BuildTopologyEdges | src/views/TopologyView.tsx:30-63 | the two loops build exactly the edge list of the specification function |
| TopologyView.EdgeCount | src/views/TopologyView.tsx:30-63 | with k core devices, max(k−1, 0) chain edges, plus one edge per access device when k > 0 |
| TopologyView.CoreChainShape | src/views/TopologyView.tsx:35-46 | chain edge i joins core[i] to core[i+1], is named `core-i-(i+1)`, carries 10000 and is up or down |
| TopologyView.AccessLinkShape | src/views/TopologyView.tsx:49-63 | access device j's edge comes from core[j mod k], is named `access-<id>`, is up exactly when the device is up, and carries 1000 for a server and 100 otherwise |
| TopologyView.ChainEdgeAt | src/views/TopologyView.tsx:35-46 | the edges below the chain's length are the chain links, in order |
| TopologyView.AccessEdgeAt | src/views/TopologyView.tsx:49-63 | the access links follow the chain, one per access device |
| TopologyView.PastChain | src/views/TopologyView.tsx:49-63 | every edge past the chain is an access link, so there is a core device |
| TopologyView.EdgeEndsAreDevices | src/views/TopologyView.tsx:38-55 | every edge starts and ends at a device of the input |
| TopologyView.EdgeEndsAt | src/views/TopologyView.tsx:38-55 | edge n starts and ends at devices of the input |
| TopologyView.ChainEndsAt | src/views/TopologyView.tsx:38-39 | a chain edge starts and ends at devices of the input |
| TopologyView.AccessEndsAt | src/views/TopologyView.tsx:54-55 | an access edge starts and ends at devices of the input |
| TopologyView.NoDanglingEdges | src/views/TopologyView.tsx:16-55 | every edge's source and target are ids of generated nodes |
| TopologyView.AccessDeviceHasOneLink | src/views/TopologyView.tsx:49-63 | with distinct device ids, each access device is the target of exactly one edge, its own access link |
| TopologyView.OtherEdgeMissesAccess | src/views/TopologyView.tsx:35-63 | with distinct device ids, no other edge ends at an access device |
| TopologyView.SurplusCoreEdgeMisses | src/views/TopologyView.tsx:31-63 | with distinct device ids, a router or switch outside the first three is neither the source nor the target of any given edge |
| TopologyView.SurplusCoreDeviceUnlinked | src/views/TopologyView.tsx:31-32 | with distinct device ids, a router or switch cut off by the slice to three core devices is neither the source nor the target of any edge |
| TopologyView.EdgesUpOrDown | src/views/TopologyView.tsx:41-57 | every generated edge is up or down, never degraded |
| TopologyView.LinkStatsAgree | src/views/TopologyView.tsx:72-75 | the cards count every device; active and failed links add up to all edges; the panel's failed count (down) equals the cards' (not up) |
| TopologyMap.StatusColor | src/components/charts/TopologyMap.tsx:44-55 | up, down, warning map to green, red, yellow, each exactly; anything else to gray |
| TopologyMap.NodeAndEdgeColours | src/components/charts/TopologyMap.tsx:118 | the same table colours nodes and edges: a node is gray exactly when unknown, an edge exactly when degraded |
| TopologyMap.NodeIcon | src/components/charts/TopologyMap.tsx:27-42 | each icon exactly for its role: router, server icon for a switch, shield for firewall, wifi for ap, printer for printer, and the globe exactly for every other role (the table is defined but the component never draws it) |
| TopologyMap.Glyph | src/components/charts/TopologyMap.tsx:163-172 | each glyph exactly for its role (shuffle arrows for a router, desktop for a switch, shield for a firewall, computer for a server, antenna for an access point), and the globe glyph exactly for a missing role, a printer or an IoT device |
| TopologyMap.IconAndGlyphFallbacksDiffer | src/components/charts/TopologyMap.tsx:27-42 | the two tables fall back on different roles: a server gets the globe icon but its own glyph, a printer its own icon but the globe glyph; only the glyph is drawn (TopologyMap.tsx:163-172), the icon table is never called |
| TopologyMap.EdgeLabel | src/components/charts/TopologyMap.tsx:132 | the label is empty exactly when the utilization is absent or zero, otherwise the rounded utilization and '%' |
| TopologyMap.ZeroUtilizationHasNoLabel | src/components/charts/TopologyMap.tsx:132 | a 0% link shows no label, while 0.25% shows '0%' |
| TopologyMap.CpuOverlay | src/components/charts/TopologyMap.tsx:184-190 | an overlay exactly for nodes with a non-zero CPU reading, writing 'CPU: ' and the rounded value and '%' |
| TopologyMap.Render | src/components/charts/TopologyMap.tsx:67-190 | nothing is drawn without a surface or without nodes; otherwise one mark per edge and per node, in order: each node has its status colour, its role's glyph, its caption and its CPU overlay (present exactly when the CPU is truthy), each edge its status colour and its utilization label (empty exactly when the utilization is falsy) |
| TopologyMap.DetailStatusVariant | src/components/charts/TopologyMap.tsx:341 | 'success' exactly for an up node, 'danger' otherwise |
| TopologyMap.SimNode.constructor | src/components/charts/TopologyMap.tsx:104 | a node starts at its position, unpinned |
| TopologyMap.Simulation.constructor | src/components/charts/TopologyMap.tsx:104-108 | the simulation starts with alphaTarget 0 |
| TopologyMap.DragStarted | src/components/charts/TopologyMap.tsx:209-213 | the node is pinned where it is, and alphaTarget becomes 0.3 only when no other drag is active |
| TopologyMap.Dragged | src/components/charts/TopologyMap.tsx:214-217 | the pin moves to the cursor; the position is left to the simulation |
| TopologyMap.DragEnded | src/components/charts/TopologyMap.tsx:218-222 | the pin is cleared, and alphaTarget returns to 0 only when no other drag is active |
| TopologyMap.DragGesture | src/components/charts/TopologyMap.tsx:208-224 | a whole drag with no other drag active leaves the node unpinned and the simulation cooling, and touches no other node |
| TopologyMap.MapView.constructor | src/components/charts/TopologyMap.tsx:64 | no node is selected at first |
| TopologyMap.MapView.NodeClicked | src/components/charts/TopologyMap.tsx:142-146 | the clicked node becomes the selection and is handed to the callback when one is given |
| TopologyMap.MapView.CloseDetails | src/components/charts/TopologyMap.tsx:330 | the selection is cleared |
| MetricChart.Tier | src/components/charts/MetricChart.tsx:58-69 | the tier is 3 from 1e9, 2 from 1e6, 1 from 1e3, 0 below, thresholds inclusive |
| MetricChart.FormatValue | src/components/charts/MetricChart.tsx:56-71 | '%' always gives one decimal and '%'; bytes and bps are scaled exactly from 1000 up, written raw with 'B' or 'bps' below; any other unit goes to the locale |
| MetricChart.ScalingRoundTrip | src/components/charts/MetricChart.tsx:58-69 | the written number times the tier's divisor is the value, under that tier's suffix |
| MetricChart.MantissaRange | src/components/charts/MetricChart.tsx:58-69 | a scaled number is at least 1, and below 1000 in the K and M tiers |
| MetricChart.BitsMirrorBytes | src/components/charts/MetricChart.tsx:64-69 | bps scales at the same thresholds to the same number as bytes |
| MetricChart.TierMonotone | src/components/charts/MetricChart.tsx:58-69 | the tier never drops as the value grows |
| MetricChart.ThresholdsInclusive | src/components/charts/MetricChart.tsx:59-62 | exactly 1000 bytes is 1.0 KB, exactly 1e6 bps is 1.0 Mbps, 999 bytes stays 999 B |
| MetricChart.KindOf | src/components/charts/MetricChart.tsx:48 | the chart is an area or bar chart exactly for those types, and a line chart by default |
| MetricChart.SeriesOf | src/components/charts/MetricChart.tsx:97-221 | bounds only in an area chart with the flag; the baseline in area and line charts with the flag; anomaly dots only in a line chart with some anomalous point; a bar chart draws bars alone |
| MetricChart.DefaultChart | src/components/charts/MetricChart.tsx:48-53 | with default props the chart is a line, plus dots when some point is anomalous |
| MetricChart.AnomalyMarkers | src/components/charts/MetricChart.tsx:197-218 | exactly the anomalous points are marked, and some are marked exactly when some point is anomalous |
| AIAnalytics.Confidence | src/views/AIAnalyticsView.tsx:47 | the confidence lies in [0.3, 0.9] and reaches its floor exactly from day 6 on |
| AIAnalytics.ConfidenceFalls | src/views/AIAnalyticsView.tsx:47 | confidence never rises the further ahead the forecast reaches |
| AIAnalytics.ForecastSeries | src/views/AIAnalyticsView.tsx:24-60 | 15 points: 8 measured, then 7 forecast |
| AIAnalytics.GenerateForecastData | src/views/AIAnalyticsView.tsx:24-60 | the two loops push exactly the series of the specification function |
| AIAnalytics.ForecastTimeline | src/views/AIAnalyticsView.tsx:29-57 | daily points from a week before now to a week after; exactly the seven after now are forecasts; the baseline is 65 throughout |
| AIAnalytics.ForecastBands | src/views/AIAnalyticsView.tsx:47-54 | each forecast lies strictly inside its band; measured points keep the band [45, 85] |
| AIAnalytics.ForecastValues | src/views/AIAnalyticsView.tsx:29-57 | measured values lie in [40, 90) and forecasts in [57, 99] |
| AIAnalytics.AnomalySeries | src/views/AIAnalyticsView.tsx:62-82 | 49 points, hour offsets 48 down to 0 |
| AIAnalytics.GenerateAnomalyData | src/views/AIAnalyticsView.tsx:62-82 | the loop pushes exactly the series of the specification function |
| AIAnalytics.AnomalyPoint | src/views/AIAnalyticsView.tsx:66-80 | hourly points ending at now; anomalous exactly when the roll is below 0.08; ordinary values inside the band, anomalous ones in [55, 113) |
| AIAnalytics.AnomalyCount | src/views/AIAnalyticsView.tsx:428 | the count written under the chart never exceeds the number of points |
| AIAnalytics.AnomalyFlags | src/views/AIAnalyticsView.tsx:417-425 | the chart receives one flag per point, the point's anomaly flag |
| AIAnalytics.CountMatchesMarkers | src/views/AIAnalyticsView.tsx:417-428 | the count is positive exactly when the chart draws markers |
| AIAnalytics.ChartsDrawn | src/views/AIAnalyticsView.tsx:371-425 | the forecast chart draws band, area and baseline; the anomaly chart is a line with baseline, its band not drawn, and markers exactly when the count is positive |
| AIAnalytics.ImpactColor | src/views/AIAnalyticsView.tsx:142-153 | high, medium, low map to red, yellow, blue, each exactly; anything else to gray |
| AIAnalytics.ImpactVariant | src/views/AIAnalyticsView.tsx:155-166 | high, medium, low map to danger, warning, info, each exactly; anything else to secondary |
| AIAnalytics.ColorFollowsVariant | src/views/AIAnalyticsView.tsx:142-166 | two impacts get the same colour exactly when they get the same variant |
| AIAnalytics.ConfidencePercent | src/views/AIAnalyticsView.tsx:328 | the badge's number is within half a unit of the confidence in per cent |
| AIAnalytics.InsightBadges | src/views/AIAnalyticsView.tsx:87-128 | four insights with distinct ids, declared impacts only, showing 92, 87, 94 and 89 per cent |
| AIAnalytics.AccuracyTier | src/views/AIAnalyticsView.tsx:498-501 | above 90 Excellent and success, above 80 Good and warning, otherwise Needs Review and danger |
| AIAnalytics.TierBoundaries | src/views/AIAnalyticsView.tsx:498-501 | exactly 90 is Good, exactly 80 needs review, and the tier never drops as accuracy grows |
| AIAnalytics.PrecisionCell | src/views/AIAnalyticsView.tsx:491 | a percentage exactly when the precision is present, holding the precision; otherwise a three-decimal number exactly when the MSE is present, holding the MSE; otherwise an empty cell |
| AIAnalytics.RecallCell | src/views/AIAnalyticsView.tsx:494 | a percentage exactly when the recall is present, holding the recall; otherwise a three-decimal number exactly when the MAE is present, holding the MAE; otherwise an empty cell |
| AIAnalytics.ModelTable | src/views/AIAnalyticsView.tsx:130-135 | the four rows rate Excellent, Good, Good, Needs Review; the first shows precision and recall as per cent, the second MSE and MAE, the last two empty score cells |
| AIAnalytics.FirstOpen | src/views/AIAnalyticsView.tsx:472 | the position of the first " (", and none exactly when there is none |
| AIAnalytics.BeforeOpen | src/views/AIAnalyticsView.tsx:472 | `split(' (')[0]` is a prefix of the text that holds no " (" and is either the whole text or followed in it by " (", which makes it the text before the first separator |
| AIAnalytics.RemoveFirstClose | src/views/AIAnalyticsView.tsx:475 | `replace(')', '')` leaves a text without ')' unchanged and otherwise removes exactly one character |
| AIAnalytics.RemoveFirstCloseAt | src/views/AIAnalyticsView.tsx:475 | when the first ')' is at position k, `replace(')', '')` is the text with exactly that character cut out |
| AIAnalytics.SplitModelName | src/views/AIAnalyticsView.tsx:472-475 | the shown name is a prefix of the model holding no " ("; there is no algorithm exactly when the name is the whole model, which happens exactly when the model has no " ("; otherwise " (" follows the name and the algorithm is the text after it, up to the next " (", with its first ')' removed |
| AIAnalytics.SplitRoundTrip | src/views/AIAnalyticsView.tsx:472-475 | a name without '(' joined by " (" to an algorithm without parentheses and ')' splits back into that name and that algorithm |
| AIAnalytics.RemoveLastClose | src/views/AIAnalyticsView.tsx:475 | removing the first ')' from `a + ")"`, when `a` has none, gives back `a` |
| AIAnalytics.SplitWithoutAlgorithm | src/views/AIAnalyticsView.tsx:472-475 | a model without " (" is shown whole, with no algorithm |
| AIAnalytics.ModelCaptions | src/views/AIAnalyticsView.tsx:472-475 | every row shows its model and algorithm on separate lines |
| AIAnalytics.ActiveModelsTile | src/views/AIAnalyticsView.tsx:181-184 | the tile's 4 is the number of rows of the model table |

## Left out

- The force layout, collision handling, cooling, zoom and pan belong to the charting library. They are floating-point physics in code outside the repository. The zoom buttons refer to a handle that exists only inside the effect, so they have no defined behaviour.
- TopologyMap.Render: the link force looks edge ends up by node id and fails on an id that is not a node. `Render` still returns a scene for such edges, so it is faithful only when every edge end is a node. Both callers satisfy this (TopologyView.NoDanglingEdges, OverviewView.StarEdgesWellFormed).
- TopologyMap.Dragged: the node's position `x`, `y` is left unchanged, because only the simulation moves it, following the pin.
- Drawing, colours of text, animation, the layout of cards and the sidebar, and the application shell are presentation only.
- Randomness, `Math.sin` and the clock are parameters. Nothing states their distribution, only their ranges.
- Numbers are exact reals. `0.9 - 6 * 0.1` is exactly 0.3 here, while in floating point it is not.
- `toFixed`, `toLocaleString`, `toISOString` and date formatting are not modelled. A formatted value keeps the number and the suffix, and timestamps stay milliseconds.
- Lower-casing covers ASCII letters only.
- Store.AppStore.FetchDevices: the 500 ms delay is elided, so the method runs in one step. Interleavings with other updates during the delay are not modelled.
- `initialize`'s tenant settings and the user's name, e-mail and preferences are kept as constants. Only the fields the views read are stated.
- The store's `dashboards` and `forecasts` are not modelled: both start empty, no action ever sets them, and their only read is a destructure in the AI analytics view that nothing uses.
- The alert actions acknowledge, silence and resolve are empty handlers in the source. Only which buttons appear is modelled.
- DevicesView.RoleStats: the dictionary is keyed by the role enumeration rather than its string. The names are pairwise distinct, so the two dictionaries correspond.
- Store.MockDevices, Store.MockAlerts, Store.MockAnomalies: their per-item facts are separate lemmas (MockDeviceAt, MockAlertFields, MockAnomalyFields). This keeps each proof small.
- The Network Health percentage of the topology page and its average link utilization are not modelled. Both divide by the edge count, which gives NaN when there are no edges.
- The overview's Network Health percentage and average memory are not modelled, for the same reason. Their trend rules are modelled.
- Domain.Alert: the alert's `interfaceId`, `correlatedAlerts` and `payload` are not modelled. No view logic depends on them; the details panel only prints the payload as JSON.
- The device model string, credentials reference, creation and update dates, interface names, speeds, VLANs and per-interface counters are random or cosmetic. Only the counters' keys and utilization are stated.
- The header's title, tenant chip, theme button, search box and displayed date range are presentation. The AI page's metric and timeframe selectors hold state that nothing reads. The accuracy bar's width is also presentation.
- The view-mode selector and filter panel of the topology page change nothing in the graph.
- TopologyMap.DragGesture composes the three handlers over one gesture. It states the protocol's net effect and is not a loop of the source.
