/**
 * The topology map component: the tables that colour and decorate nodes and
 * edges, the rules that decide which labels are drawn, and the handlers that
 * pin a node while it is dragged and record the clicked node. The force
 * layout itself belongs to the charting library and is not modelled; the
 * simulation is reduced to its `alphaTarget`.
 */
module TopologyMap {
  import opened Common
  import opened Domain

  // ---------------------------------------------------------------------
  // Colour, icon and glyph tables
  // ---------------------------------------------------------------------

  const Green: string := "#10B981"
  const Red: string := "#EF4444"
  const Yellow: string := "#F59E0B"
  const Gray: string := "#6B7280"

  /** `getStatusColor`: one colour per known status, gray for every other value. */
  function StatusColor(status: string): (c: string)
    ensures c == Green <==> status == "up"
    ensures c == Red <==> status == "down"
    ensures c == Yellow <==> status == "warning"
    ensures c == Gray <==> status != "up" && status != "down" && status != "warning"
  {
    match status
    case "up" => Green
    case "down" => Red
    case "warning" => Yellow
    case _ => Gray
  }

  /** The same table colours node circles and edge strokes: a node and an edge with the same
      status word get the same colour; 'unknown' nodes and 'degraded' edges are both gray. */
  lemma NodeAndEdgeColours(n: TopologyNode, e: TopologyEdge)
    ensures n.status.Name() == e.status.Name() ==> StatusColor(n.status.Name()) == StatusColor(e.status.Name())
    ensures StatusColor(Unknown.Name()) == Gray && StatusColor(LinkDegraded.Name()) == Gray
    ensures StatusColor(n.status.Name()) == Gray <==> n.status == Unknown
    ensures StatusColor(e.status.Name()) == Gray <==> e.status == LinkDegraded
    ensures (StatusColor(n.status.Name()) == StatusColor(e.status.Name())) <==>
      (n.status == Up && e.status == LinkUp) || (n.status == Down && e.status == LinkDown) ||
      (n.status == Unknown && e.status == LinkDegraded)
  {
  }

  datatype Icon = RouterIcon | ServerIcon | ShieldIcon | WifiIcon | PrinterIcon | GlobeIcon

  /** `getNodeIcon`: a switch uses the server icon; servers and unknown roles fall back to the globe.
      The component defines this table but draws only the glyphs below, so nothing renders it. */
  function NodeIcon(role: string): (icon: Icon)
    ensures icon == RouterIcon <==> role == "router"
    ensures icon == ServerIcon <==> role == "switch"
    ensures icon == ShieldIcon <==> role == "firewall"
    ensures icon == WifiIcon <==> role == "ap"
    ensures icon == PrinterIcon <==> role == "printer"
    ensures icon == GlobeIcon <==>
      role != "router" && role != "switch" && role != "firewall" && role != "ap" && role != "printer"
  {
    match role
    case "router" => RouterIcon
    case "switch" => ServerIcon
    case "firewall" => ShieldIcon
    case "ap" => WifiIcon
    case "printer" => PrinterIcon
    case _ => GlobeIcon
  }

  /** The text glyph drawn inside a node circle. */
  function Glyph(role: Option<Role>): (g: string)
    ensures g == "\U{1F500}" <==> role == Some(Router)
    ensures g == "\U{1F5A7}" <==> role == Some(Switch)
    ensures g == "\U{1F6E1}\U{FE0F}" <==> role == Some(Firewall)
    ensures g == "\U{1F5A5}\U{FE0F}" <==> role == Some(Server)
    ensures g == "\U{1F4F6}" <==> role == Some(Ap)
    ensures g == "\U{1F310}" <==> role.None? || role.value in {Printer, Iot}
  {
    match role
    case Some(Router) => "\U{1F500}"
    case Some(Switch) => "\U{1F5A7}"
    case Some(Firewall) => "\U{1F6E1}\U{FE0F}"
    case Some(Server) => "\U{1F5A5}\U{FE0F}"
    case Some(Ap) => "\U{1F4F6}"
    case _ => "\U{1F310}"
  }

  /** The icon table and the glyph switch disagree on which roles fall back: a server has its own
      glyph but the globe icon, a printer has its own icon but the globe glyph. Only the glyph is
      drawn; the icon table is defined and never called. */
  lemma IconAndGlyphFallbacksDiffer()
    ensures NodeIcon(Server.Name()) == GlobeIcon && Glyph(Some(Server)) != Glyph(None)
    ensures NodeIcon(Printer.Name()) != GlobeIcon && Glyph(Some(Printer)) == Glyph(None)
  {
  }

  // ---------------------------------------------------------------------
  // Labels and overlays
  // ---------------------------------------------------------------------

  /** A number is truthy when it is present and not zero. */
  predicate Truthy(v: Option<real>)
  {
    v.Some? && v.value != 0.0
  }

  /** The edge label: the rounded utilization and '%', or nothing when utilization is falsy. */
  function EdgeLabel(utilization: Option<real>): (text: string)
    ensures text == "" <==> !Truthy(utilization)
    ensures Truthy(utilization) ==>
      text[|text| - 1] == '%' && text[..|text| - 1] == IntToString(Round(utilization.value))
  {
    if Truthy(utilization) then IntToString(Round(utilization.value)) + "%" else ""
  }

  /** Zero utilization shows no label, while a small non-zero one shows "0%". */
  lemma ZeroUtilizationHasNoLabel()
    ensures EdgeLabel(Some(0.0)) == "" && EdgeLabel(None) == ""
    ensures EdgeLabel(Some(0.25)) == "0%"
  {
    assert Round(0.25) == 0;
    assert NatToString(0) == "0";
  }

  /** The CPU line under a node, present only when the node's cpu metric is truthy. */
  function CpuOverlay(n: TopologyNode): (overlay: Option<string>)
    ensures overlay.Some? <==> n.metrics.Some? && Truthy(n.metrics.value.cpu)
    ensures overlay.Some? ==> overlay.value == "CPU: " + IntToString(Round(n.metrics.value.cpu.value)) + "%"
  {
    if n.metrics.Some? && Truthy(n.metrics.value.cpu)
    then Some("CPU: " + IntToString(Round(n.metrics.value.cpu.value)) + "%")
    else None
  }

  // ---------------------------------------------------------------------
  // The drawn scene
  // ---------------------------------------------------------------------

  datatype EdgeMark = EdgeMark(stroke: string, text: string)
  datatype NodeMark = NodeMark(fill: string, glyph: string, caption: string, overlay: Option<string>)
  datatype Scene = Scene(edges: seq<EdgeMark>, nodes: seq<NodeMark>)

  function MarkEdge(e: TopologyEdge): EdgeMark
  {
    EdgeMark(StatusColor(e.status.Name()), EdgeLabel(e.utilization))
  }

  function MarkNode(n: TopologyNode): NodeMark
  {
    NodeMark(StatusColor(n.status.Name()), Glyph(n.deviceRole), n.caption, CpuOverlay(n))
  }

  /** What the effect draws; `None` when it returns early (no drawing surface or no nodes), in
      which case the previous drawing is left untouched. The link force resolves edge ends by node
      id and fails on an unknown one, so the scene stands for the drawing only when every edge
      end is a node. */
  function Render(mounted: bool, nodes: seq<TopologyNode>, edges: seq<TopologyEdge>): (scene: Option<Scene>)
    ensures scene.None? <==> !mounted || |nodes| == 0
    ensures scene.Some? ==> |scene.value.edges| == |edges| && |scene.value.nodes| == |nodes|
    ensures scene.Some? ==> forall i :: 0 <= i < |nodes| ==>
      scene.value.nodes[i].fill == StatusColor(nodes[i].status.Name()) &&
      scene.value.nodes[i].glyph == Glyph(nodes[i].deviceRole) &&
      scene.value.nodes[i].caption == nodes[i].caption &&
      scene.value.nodes[i].overlay == CpuOverlay(nodes[i]) &&
      (scene.value.nodes[i].overlay.Some? <==> nodes[i].metrics.Some? && Truthy(nodes[i].metrics.value.cpu))
    ensures scene.Some? ==> forall i :: 0 <= i < |edges| ==>
      scene.value.edges[i].stroke == StatusColor(edges[i].status.Name()) &&
      scene.value.edges[i].text == EdgeLabel(edges[i].utilization) &&
      (scene.value.edges[i].text == "" <==> !Truthy(edges[i].utilization))
  {
    if !mounted || |nodes| == 0 then None
    else
      var em := seq(|edges|, i requires 0 <= i < |edges| => MarkEdge(edges[i]));
      var nm := seq(|nodes|, i requires 0 <= i < |nodes| => MarkNode(nodes[i]));
      assert forall i :: 0 <= i < |edges| ==> em[i] == MarkEdge(edges[i]);
      assert forall i :: 0 <= i < |nodes| ==> nm[i] == MarkNode(nodes[i]);
      Some(Scene(em, nm))
  }

  /** The status badge of the node-details panel. */
  function DetailStatusVariant(n: TopologyNode): (variant: string)
    ensures variant == "success" <==> n.status == Up
    ensures variant == "danger" <==> n.status != Up
  {
    if n.status == Up then "success" else "danger"
  }

  // ---------------------------------------------------------------------
  // Drag protocol and selection
  // ---------------------------------------------------------------------

  /** A node as the simulation sees it: its position and, while dragged, its pin (fx, fy). */
  class SimNode {
    const data: TopologyNode
    var x: real
    var y: real
    var pin: Option<Point>

    constructor (data: TopologyNode, x: real, y: real)
      ensures this.data == data && this.x == x && this.y == y && pin == None
    {
      this.data := data;
      this.x := x;
      this.y := y;
      pin := None;
    }
  }

  /** The simulation, reduced to the alpha target the drag handlers set. */
  class Simulation {
    var alphaTarget: real

    constructor ()
      ensures alphaTarget == 0.0
    {
      alphaTarget := 0.0;
    }
  }

  /** A drag event: how many other drags are active, and the cursor position. */
  datatype DragEvent = DragEvent(active: nat, x: real, y: real)

  /** Drag start: reheats the simulation when no other drag is active and pins the node where it is. */
  method DragStarted(sim: Simulation, event: DragEvent, d: SimNode)
    modifies sim, d
    ensures sim.alphaTarget == if event.active == 0 then 0.3 else old(sim.alphaTarget)
    ensures d.pin == Some(Point(old(d.x), old(d.y)))
    ensures d.x == old(d.x) && d.y == old(d.y)
  {
    if event.active == 0 {
      sim.alphaTarget := 0.3;
    }
    d.pin := Some(Point(d.x, d.y));
  }

  /** Drag: moves the pin to the cursor. */
  method Dragged(event: DragEvent, d: SimNode)
    modifies d
    ensures d.pin == Some(Point(event.x, event.y))
    ensures d.x == old(d.x) && d.y == old(d.y)
  {
    d.pin := Some(Point(event.x, event.y));
  }

  /** Drag end: lets the simulation cool when no other drag is active and releases the pin. */
  method DragEnded(sim: Simulation, event: DragEvent, d: SimNode)
    modifies sim, d
    ensures sim.alphaTarget == if event.active == 0 then 0.0 else old(sim.alphaTarget)
    ensures d.pin == None
    ensures d.x == old(d.x) && d.y == old(d.y)
  {
    if event.active == 0 {
      sim.alphaTarget := 0.0;
    }
    d.pin := None;
  }

  /** One complete drag, with no other drag active, of `d`: pinned where the cursor last was while dragging,
      released at the end with the simulation cooling again, and no other node touched. */
  method DragGesture(sim: Simulation, d: SimNode, other: SimNode, moves: seq<Point>, endAt: Point)
    requires d != other
    modifies sim, d
    ensures d.pin == None && sim.alphaTarget == 0.0
    ensures other.x == old(other.x) && other.y == old(other.y) && other.pin == old(other.pin)
  {
    DragStarted(sim, DragEvent(0, d.x, d.y), d);
    assert sim.alphaTarget == 0.3;
    var k := 0;
    while k < |moves|
      invariant 0 <= k <= |moves|
      invariant sim.alphaTarget == 0.3
      invariant d.pin.Some?
      invariant k > 0 ==> d.pin == Some(moves[k - 1])
      invariant other.x == old(other.x) && other.y == old(other.y) && other.pin == old(other.pin)
    {
      Dragged(DragEvent(0, moves[k].x, moves[k].y), d);
      k := k + 1;
    }
    DragEnded(sim, DragEvent(0, endAt.x, endAt.y), d);
  }

  /** The component's selection state. */
  class MapView {
    var selected: Option<TopologyNode>

    constructor ()
      ensures selected == None
    {
      selected := None;
    }

    /** Click on a node: select it, and hand it to `onNodeClick` when one is given. */
    method NodeClicked(d: TopologyNode, hasCallback: bool) returns (forwarded: Option<TopologyNode>)
      modifies this
      ensures selected == Some(d)
      ensures forwarded == if hasCallback then Some(d) else None
    {
      selected := Some(d);
      forwarded := if hasCallback then Some(d) else None;
    }

    /** The close button of the details panel. */
    method CloseDetails()
      modifies this
      ensures selected == None
    {
      selected := None;
    }
  }
}
