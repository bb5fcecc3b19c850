/**
 * The topology page: every device becomes a node; up to three routers or
 * switches form a core chain; every other device hangs off a core device,
 * assigned round-robin. The mock utilization and the mock up/down state of
 * core links (calls to `Math.random()`) are parameters.
 */
module TopologyView {
  import opened Common
  import opened Domain

  /** The random draws consumed while building the graph, one stream per call site. */
  datatype LinkDraws = LinkDraws(
    nodeUtil: nat -> Unit01,
    coreStatus: nat -> Unit01,
    coreUtil: nat -> Unit01,
    accessUtil: nat -> Unit01)

  // ---------------------------------------------------------------------
  // Nodes
  // ---------------------------------------------------------------------

  function NodeFor(d: Device, utilization: real): (n: TopologyNode)
    ensures n.id == d.id && n.kind == DeviceNode && n.status == d.status && n.deviceRole == Some(d.role)
    ensures n.caption <= d.hostname && '.' !in n.caption
    ensures |n.caption| < |d.hostname| ==> d.hostname[|n.caption|] == '.'
  {
    TopologyNode(d.id, DeviceNode, BeforeFirst(d.hostname, '.'), Some(d.role), d.status,
      Some(NodeMetrics(Some(d.metrics.cpuUtilization), Some(d.metrics.memoryUtilization), Some(utilization))),
      None)
  }

  /** One node per device, in order, labelled with the hostname up to its first '.'. */
  function TopologyNodes(devices: seq<Device>, draws: LinkDraws): (nodes: seq<TopologyNode>)
    ensures |nodes| == |devices|
    ensures forall i :: 0 <= i < |devices| ==>
      && nodes[i].id == devices[i].id
      && nodes[i].kind == DeviceNode
      && nodes[i].status == devices[i].status
      && nodes[i].deviceRole == Some(devices[i].role)
      && nodes[i].caption <= devices[i].hostname
      && '.' !in nodes[i].caption
      && (|nodes[i].caption| < |devices[i].hostname| ==> devices[i].hostname[|nodes[i].caption|] == '.')
  {
    var nodes := seq(|devices|, i requires 0 <= i < |devices| => NodeFor(devices[i], draws.nodeUtil(i) * 100.0));
    assert forall i :: 0 <= i < |devices| ==> nodes[i] == NodeFor(devices[i], draws.nodeUtil(i) * 100.0);
    nodes
  }

  function DeviceIds(devices: seq<Device>): set<string>
  {
    set d | d in devices :: d.id
  }

  /** The node ids are exactly the device ids. */
  lemma NodeIdsAreDeviceIds(devices: seq<Device>, draws: LinkDraws)
    ensures NodeIds(TopologyNodes(devices, draws)) == DeviceIds(devices)
  {
    var nodes := TopologyNodes(devices, draws);
    forall x | x in DeviceIds(devices) ensures x in NodeIds(nodes) {
      var k :| 0 <= k < |devices| && devices[k].id == x;
      assert nodes[k] in nodes;
    }
    forall x | x in NodeIds(nodes) ensures x in DeviceIds(devices) {
      var k :| 0 <= k < |nodes| && nodes[k].id == x;
      assert devices[k] in devices;
    }
  }

  function NodeIds(nodes: seq<TopologyNode>): set<string>
  {
    set n | n in nodes :: n.id
  }

  // ---------------------------------------------------------------------
  // Core and access devices
  // ---------------------------------------------------------------------

  predicate IsCoreDevice(d: Device)
  {
    d.role == Router || d.role == Switch
  }

  predicate IsAccessDevice(d: Device)
  {
    d.role != Router && d.role != Switch
  }

  /** The first three routers or switches, in input order. */
  function CoreDevices(devices: seq<Device>): (core: seq<Device>)
    ensures core <= Filter(devices, IsCoreDevice)
    ensures |core| == if |Filter(devices, IsCoreDevice)| < 3 then |Filter(devices, IsCoreDevice)| else 3
    ensures forall d :: d in core ==> d in devices && IsCoreDevice(d)
  {
    var all := Filter(devices, IsCoreDevice);
    assert forall d :: d in all ==> d in devices by {
      forall d | d in all ensures d in devices {
        FilterMembership(devices, IsCoreDevice, d);
      }
    }
    Take(all, 3)
  }

  /** Every device that is neither a router nor a switch, in input order. */
  function AccessDevices(devices: seq<Device>): (access: seq<Device>)
    ensures IsSubsequence(access, devices)
    ensures forall d :: d in access <==> d in devices && !IsCoreDevice(d)
  {
    var access := Filter(devices, IsAccessDevice);
    assert forall d :: d in access <==> d in devices && !IsCoreDevice(d) by {
      forall d ensures d in access <==> d in devices && !IsCoreDevice(d) {
        FilterMembership(devices, IsAccessDevice, d);
      }
    }
    access
  }

  // ---------------------------------------------------------------------
  // Edges: the specification
  // ---------------------------------------------------------------------

  /** The link between core[i] and core[i + 1]. */
  function CoreLink(core: seq<Device>, i: nat, draws: LinkDraws): TopologyEdge
    requires i + 1 < |core|
  {
    TopologyEdge("core-" + NatToString(i) + "-" + NatToString(i + 1),
      core[i].id, core[i + 1].id, Physical,
      if draws.coreStatus(i) > 0.1 then LinkUp else LinkDown,
      Some(10000), Some(draws.coreUtil(i) * 100.0), Some(Ethernet))
  }

  /** The link from a core device to the j-th access device. */
  function AccessLink(hub: Device, d: Device, j: nat, draws: LinkDraws): TopologyEdge
  {
    TopologyEdge("access-" + d.id, hub.id, d.id, Physical,
      if d.status == Up then LinkUp else LinkDown,
      Some(if d.role == Server then 1000 else 100), Some(draws.accessUtil(j) * 100.0), Some(Ethernet))
  }

  /** `coreDevices[j % coreDevices.length]`, which is undefined when there is no core device. */
  function HubFor(core: seq<Device>, j: nat): (hub: Option<Device>)
    ensures hub.Some? <==> |core| > 0
    ensures hub.Some? ==> hub.value == core[j % |core|]
  {
    if |core| == 0 then None else Some(core[j % |core|])
  }

  function ChainLength(core: seq<Device>): nat
  {
    if |core| == 0 then 0 else |core| - 1
  }

  function CoreChain(core: seq<Device>, draws: LinkDraws): seq<TopologyEdge>
  {
    seq(ChainLength(core), i requires 0 <= i < ChainLength(core) => CoreLink(core, i, draws))
  }

  function AccessLinks(core: seq<Device>, access: seq<Device>, draws: LinkDraws): seq<TopologyEdge>
  {
    if |core| == 0 then []
    else seq(|access|, j requires 0 <= j < |access| => AccessLink(core[j % |core|], access[j], j, draws))
  }

  /** All edges of the topology page: the core chain, then the access links. */
  function TopologyEdges(devices: seq<Device>, draws: LinkDraws): seq<TopologyEdge>
  {
    CoreChain(CoreDevices(devices), draws) + AccessLinks(CoreDevices(devices), AccessDevices(devices), draws)
  }

  // ---------------------------------------------------------------------
  // Edges: the loops that push into `topologyEdges`
  // ---------------------------------------------------------------------

  /** The `for` loop over the core devices. */
  method PushCoreChain(core: seq<Device>, draws: LinkDraws) returns (edges: seq<TopologyEdge>)
    ensures edges == CoreChain(core, draws)
  {
    ghost var chain := CoreChain(core, draws);
    edges := [];
    var i := 0;
    while i < |core| - 1
      invariant 0 <= i <= ChainLength(core)
      invariant edges == chain[..i]
    {
      assert chain[..i + 1] == chain[..i] + [CoreLink(core, i, draws)];
      edges := edges + [CoreLink(core, i, draws)];
      i := i + 1;
    }
    assert chain[..i] == chain;
  }

  /** The `forEach` over the access devices, appending to the edges built so far. */
  method PushAccessLinks(core: seq<Device>, access: seq<Device>, draws: LinkDraws, start: seq<TopologyEdge>)
    returns (edges: seq<TopologyEdge>)
    ensures edges == start + AccessLinks(core, access, draws)
  {
    ghost var links := AccessLinks(core, access, draws);
    edges := start;
    var j := 0;
    while j < |access|
      invariant 0 <= j <= |access|
      invariant |core| == 0 ==> edges == start
      invariant |core| > 0 ==> edges == start + links[..j]
    {
      var hub := HubFor(core, j);
      if hub.Some? {
        assert links[..j + 1] == links[..j] + [AccessLink(hub.value, access[j], j, draws)];
        edges := edges + [AccessLink(hub.value, access[j], j, draws)];
      }
      j := j + 1;
    }
    assert |core| > 0 ==> links[..j] == links;
  }

  method BuildTopologyEdges(devices: seq<Device>, draws: LinkDraws) returns (edges: seq<TopologyEdge>)
    ensures edges == TopologyEdges(devices, draws)
  {
    var core := CoreDevices(devices);
    var access := AccessDevices(devices);
    edges := PushCoreChain(core, draws);
    edges := PushAccessLinks(core, access, draws, edges);
  }

  // ---------------------------------------------------------------------
  // Properties of the graph
  // ---------------------------------------------------------------------

  /** With k core devices there are max(k-1, 0) chain links, plus one link per access device when k > 0. */
  lemma EdgeCount(devices: seq<Device>, draws: LinkDraws)
    ensures var k := |CoreDevices(devices)|;
      |TopologyEdges(devices, draws)| ==
        (if k > 0 then k - 1 else 0) + (if k > 0 then |AccessDevices(devices)| else 0)
  {
  }

  /** The i-th chain link joins core[i] to core[i + 1], carries 10 Gbps and is named `core-i-(i+1)`. */
  lemma CoreChainShape(devices: seq<Device>, draws: LinkDraws, i: nat)
    requires i + 1 < |CoreDevices(devices)|
    ensures var core := CoreDevices(devices); var e := TopologyEdges(devices, draws)[i];
      && e.source == core[i].id && e.target == core[i + 1].id
      && e.id == "core-" + NatToString(i) + "-" + NatToString(i + 1)
      && e.bandwidth == Some(10000)
      && (e.status == LinkUp || e.status == LinkDown)
  {
  }

  /** The link of the j-th access device comes from core[j mod k]; it is up iff the device is up and
      carries 1000 for a server, 100 otherwise. */
  lemma AccessLinkShape(devices: seq<Device>, draws: LinkDraws, j: nat)
    requires |CoreDevices(devices)| > 0
    requires j < |AccessDevices(devices)|
    ensures var core := CoreDevices(devices); var d := AccessDevices(devices)[j];
      var e := TopologyEdges(devices, draws)[ChainLength(core) + j];
      && e.source == core[j % |core|].id && e.target == d.id
      && e.id == "access-" + d.id
      && (e.status == LinkUp <==> d.status == Up)
      && (e.bandwidth == Some(1000) <==> d.role == Server)
      && (e.bandwidth == Some(100) <==> d.role != Server)
  {
  }

  /** The n-th edge, for n below the chain's length, is the n-th chain link. */
  lemma ChainEdgeAt(devices: seq<Device>, draws: LinkDraws, n: nat)
    requires n < ChainLength(CoreDevices(devices))
    ensures n < |TopologyEdges(devices, draws)|
    ensures TopologyEdges(devices, draws)[n] == CoreLink(CoreDevices(devices), n, draws)
  {
  }

  /** After the chain come the access links, one per access device, when there is a core device. */
  lemma AccessEdgeAt(devices: seq<Device>, draws: LinkDraws, j: nat)
    requires |CoreDevices(devices)| > 0 && j < |AccessDevices(devices)|
    ensures ChainLength(CoreDevices(devices)) + j < |TopologyEdges(devices, draws)|
    ensures var core := CoreDevices(devices);
      TopologyEdges(devices, draws)[ChainLength(core) + j] == AccessLink(core[j % |core|], AccessDevices(devices)[j], j, draws)
  {
  }

  /** Past the chain, every edge is an access link. */
  lemma PastChain(devices: seq<Device>, draws: LinkDraws, n: nat)
    requires ChainLength(CoreDevices(devices)) <= n < |TopologyEdges(devices, draws)|
    ensures |CoreDevices(devices)| > 0 && n - ChainLength(CoreDevices(devices)) < |AccessDevices(devices)|
  {
  }

  /** Every edge starts and ends at a device of the input. */
  lemma EdgeEndsAreDevices(devices: seq<Device>, draws: LinkDraws)
    ensures forall n :: 0 <= n < |TopologyEdges(devices, draws)| ==>
      TopologyEdges(devices, draws)[n].source in DeviceIds(devices) &&
      TopologyEdges(devices, draws)[n].target in DeviceIds(devices)
  {
    forall n | 0 <= n < |TopologyEdges(devices, draws)|
      ensures TopologyEdges(devices, draws)[n].source in DeviceIds(devices)
      ensures TopologyEdges(devices, draws)[n].target in DeviceIds(devices)
    {
      EdgeEndsAt(devices, draws, n);
    }
  }

  lemma EdgeEndsAt(devices: seq<Device>, draws: LinkDraws, n: nat)
    requires n < |TopologyEdges(devices, draws)|
    ensures TopologyEdges(devices, draws)[n].source in DeviceIds(devices)
    ensures TopologyEdges(devices, draws)[n].target in DeviceIds(devices)
  {
    if n < ChainLength(CoreDevices(devices)) {
      ChainEndsAt(devices, draws, n);
    } else {
      PastChain(devices, draws, n);
      AccessEndsAt(devices, draws, n - ChainLength(CoreDevices(devices)));
    }
  }

  lemma ChainEndsAt(devices: seq<Device>, draws: LinkDraws, n: nat)
    requires n < ChainLength(CoreDevices(devices))
    ensures n < |TopologyEdges(devices, draws)|
    ensures TopologyEdges(devices, draws)[n].source in DeviceIds(devices)
    ensures TopologyEdges(devices, draws)[n].target in DeviceIds(devices)
  {
    var core := CoreDevices(devices);
    ChainEdgeAt(devices, draws, n);
    assert core[n] in core && core[n + 1] in core;
    assert core[n] in devices && core[n + 1] in devices;
  }

  lemma AccessEndsAt(devices: seq<Device>, draws: LinkDraws, j: nat)
    requires |CoreDevices(devices)| > 0 && j < |AccessDevices(devices)|
    ensures ChainLength(CoreDevices(devices)) + j < |TopologyEdges(devices, draws)|
    ensures TopologyEdges(devices, draws)[ChainLength(CoreDevices(devices)) + j].source in DeviceIds(devices)
    ensures TopologyEdges(devices, draws)[ChainLength(CoreDevices(devices)) + j].target in DeviceIds(devices)
  {
    var core := CoreDevices(devices);
    var access := AccessDevices(devices);
    AccessEdgeAt(devices, draws, j);
    assert core[j % |core|] in core && access[j] in access;
    assert core[j % |core|] in devices && access[j] in devices;
  }

  /** Every edge goes between two nodes of the page: no edge dangles. */
  lemma NoDanglingEdges(devices: seq<Device>, draws: LinkDraws)
    ensures forall e :: e in TopologyEdges(devices, draws) ==>
      e.source in NodeIds(TopologyNodes(devices, draws)) && e.target in NodeIds(TopologyNodes(devices, draws))
  {
    NodeIdsAreDeviceIds(devices, draws);
    EdgeEndsAreDevices(devices, draws);
  }

  /** With unique device ids, each access device is the target of exactly one edge. */
  lemma AccessDeviceHasOneLink(devices: seq<Device>, draws: LinkDraws, j: nat)
    requires UniqueIds(devices)
    requires |CoreDevices(devices)| > 0
    requires j < |AccessDevices(devices)|
    ensures var d := AccessDevices(devices)[j];
      Filter(TopologyEdges(devices, draws), Into(d.id))
        == [AccessLink(CoreDevices(devices)[j % |CoreDevices(devices)|], d, j, draws)]
  {
    var core := CoreDevices(devices);
    var edges := TopologyEdges(devices, draws);
    var d := AccessDevices(devices)[j];
    var m := ChainLength(core) + j;
    AccessEdgeAt(devices, draws, j);
    forall n | 0 <= n < |edges| && n != m
      ensures !Into(d.id)(edges[n])
    {
      OtherEdgeMissesAccess(devices, draws, j, n);
    }
    FilterSingle(edges, Into(d.id), m);
  }

  /** An edge other than the access device's own link does not end at that device. */
  lemma OtherEdgeMissesAccess(devices: seq<Device>, draws: LinkDraws, j: nat, n: nat)
    requires UniqueIds(devices)
    requires |CoreDevices(devices)| > 0
    requires j < |AccessDevices(devices)|
    requires n < |TopologyEdges(devices, draws)| && n != ChainLength(CoreDevices(devices)) + j
    ensures TopologyEdges(devices, draws)[n].target != AccessDevices(devices)[j].id
  {
    var core := CoreDevices(devices);
    var access := AccessDevices(devices);
    var d := access[j];
    FilterKeepsUniqueIds(devices, IsAccessDevice);
    if n < ChainLength(core) {
      ChainEdgeAt(devices, draws, n);
      var c := core[n + 1];
      assert c in core;
      assert c in devices && IsCoreDevice(c);
      assert d in access;
      assert d in devices && !IsCoreDevice(d);
      var a :| 0 <= a < |devices| && devices[a] == c;
      var b :| 0 <= b < |devices| && devices[b] == d;
      assert a != b;
    } else {
      var j' := n - ChainLength(core);
      PastChain(devices, draws, n);
      AccessEdgeAt(devices, draws, j');
      assert access[j'].id != access[j].id;
    }
  }

  /** Two different devices of a list with unique ids have different ids. */
  lemma DistinctDeviceIds(devices: seq<Device>, a: Device, b: Device)
    requires UniqueIds(devices)
    requires a in devices && b in devices && a != b
    ensures a.id != b.id
  {
    var x :| 0 <= x < |devices| && devices[x] == a;
    var y :| 0 <= y < |devices| && devices[y] == b;
    assert x != y;
  }

  /** A core device beyond the first three is neither end of the `n`-th edge. */
  lemma SurplusCoreEdgeMisses(devices: seq<Device>, draws: LinkDraws, d: Device, n: nat)
    requires UniqueIds(devices)
    requires d in devices && IsCoreDevice(d) && d !in CoreDevices(devices)
    requires n < |TopologyEdges(devices, draws)|
    ensures TopologyEdges(devices, draws)[n].source != d.id
    ensures TopologyEdges(devices, draws)[n].target != d.id
  {
    var core := CoreDevices(devices);
    if n < ChainLength(core) {
      ChainEdgeAt(devices, draws, n);
      assert core[n] in core && core[n + 1] in core;
      DistinctDeviceIds(devices, core[n], d);
      DistinctDeviceIds(devices, core[n + 1], d);
    } else {
      var j := n - ChainLength(core);
      PastChain(devices, draws, n);
      AccessEdgeAt(devices, draws, j);
      var access := AccessDevices(devices);
      assert core[j % |core|] in core && access[j] in access;
      DistinctDeviceIds(devices, core[j % |core|], d);
      DistinctDeviceIds(devices, access[j], d);
    }
  }

  /** Only the first three core devices are drawn into the graph: any further router or switch gets
      no link at all. */
  lemma SurplusCoreDeviceUnlinked(devices: seq<Device>, draws: LinkDraws, d: Device)
    requires UniqueIds(devices)
    requires d in devices && IsCoreDevice(d) && d !in CoreDevices(devices)
    ensures forall e :: e in TopologyEdges(devices, draws) ==> e.source != d.id && e.target != d.id
  {
    var edges := TopologyEdges(devices, draws);
    forall e | e in edges ensures e.source != d.id && e.target != d.id {
      var n :| 0 <= n < |edges| && edges[n] == e;
      SurplusCoreEdgeMisses(devices, draws, d, n);
    }
  }

  predicate IsActiveLink(e: TopologyEdge)
  {
    e.status == LinkUp
  }

  predicate IsNotUpLink(e: TopologyEdge)
  {
    e.status != LinkUp
  }

  predicate IsDownLink(e: TopologyEdge)
  {
    e.status == LinkDown
  }

  /** Every generated edge is either up or down, never degraded. */
  lemma EdgesUpOrDown(devices: seq<Device>, draws: LinkDraws)
    ensures forall i :: 0 <= i < |TopologyEdges(devices, draws)| ==>
      TopologyEdges(devices, draws)[i].status != LinkDegraded
  {
    forall i | 0 <= i < |TopologyEdges(devices, draws)| ensures TopologyEdges(devices, draws)[i].status != LinkDegraded {
      if i < ChainLength(CoreDevices(devices)) {
        ChainEdgeAt(devices, draws, i);
      } else {
        PastChain(devices, draws, i);
        AccessEdgeAt(devices, draws, i - ChainLength(CoreDevices(devices)));
      }
    }
  }

  /** The page's statistics cards and its connection-statistics panel. */
  datatype TopologyStats = TopologyStats(totalNodes: nat, activeLinks: nat, failedLinks: nat)
  datatype ConnectionStats = ConnectionStats(totalLinks: nat, activeLinks: nat, failedLinks: nat)

  /** The cards count failed links as those not up. */
  function Stats(nodes: seq<TopologyNode>, edges: seq<TopologyEdge>): TopologyStats
  {
    TopologyStats(|nodes|, |Filter(edges, IsActiveLink)|, |Filter(edges, IsNotUpLink)|)
  }

  /** The panel counts failed links as those down. */
  function Connections(edges: seq<TopologyEdge>): ConnectionStats
  {
    ConnectionStats(|edges|, |Filter(edges, IsActiveLink)|, |Filter(edges, IsDownLink)|)
  }

  /** Active and failed links partition the edges, and the two notions of "failed" agree
      on the generated graph because its links are only ever up or down. */
  lemma LinkStatsAgree(devices: seq<Device>, draws: LinkDraws)
    ensures var edges := TopologyEdges(devices, draws);
      var cards := Stats(TopologyNodes(devices, draws), edges);
      var panel := Connections(edges);
      && cards.totalNodes == |devices|
      && cards.activeLinks + cards.failedLinks == |edges|
      && panel.failedLinks == cards.failedLinks
      && panel.activeLinks + panel.failedLinks == panel.totalLinks
  {
    var edges := TopologyEdges(devices, draws);
    FilterPartition(edges, IsActiveLink, IsNotUpLink);
    EdgesUpOrDown(devices, draws);
    FilterAgree(edges, IsNotUpLink, IsDownLink);
  }
}
