/** ForSRv6Service: one ip-vrf service into per-node ops, checks and rollback. */
module Srv6Render {
  import opened Text
  import opened ServiceObjects
  import opened SiteNames

  /** A parsed prefix: an IPv4 one by octets and length, or an IPv6 one. */
  datatype Ip = V4(a: nat, b: nat, c: nat, d: nat, bits: nat) | V6

  /** The site facts and the address parser. */
  datatype Facts = Facts(
    ports: PortMap,
    nodeKind: string,
    spineLinks: map<Node, map<string, string>>,
    locators: map<Node, string>,
    sids: map<Node, string>,
    parse: string -> Option<Ip>)

  predicate HasSuffix(s: string, suffix: string) {
    |suffix| <= |s| && s[|s| - |suffix|..] == suffix
  }

  function TrimSuffix(s: string, suffix: string): string {
    if HasSuffix(s, suffix) then s[..|s| - |suffix|] else s
  }

  /** An IPv4 /24 with the given host octet. */
  function HostAddr(facts: Facts, prefix: string, host: nat): (r: Option<string>) {
    match facts.parse(prefix)
    case Some(V4(a, b, c, _, 24)) => Some(Decimal(a) + "." + Decimal(b) + "." + Decimal(c) + "." + Decimal(host) + "/24")
    case _ => None
  }

  datatype Attach = Attach(port: string, logic: string, sid: string, sidFn: string, client: string, gw: string, loc: string)

  /** What one attachment node contributes, or nothing when an identifier, a
      locator or a port is missing. */
  function AttachOf(spec: ServiceSpec, alloc: Allocations, facts: Facts, n: Node): Option<Attach>
    requires |spec.attachments| == 2
  {
    if n !in facts.sids || facts.sids[n] == "" || !HasSuffix(facts.sids[n], "/64") then None
    else if n !in alloc.prefixes || alloc.prefixes[n] == "" then None
    else if HostAddr(facts, alloc.prefixes[n], 1).None? then None
    else if n !in facts.locators || facts.locators[n] == "" then None
    else
      var att := if spec.attachments[0].node == n then spec.attachments[0] else spec.attachments[1];
      match Port(facts.ports, att.port)
      case None => None
      case Some(port) =>
        Some(Attach(port, att.port, facts.sids[n], TrimSuffix(facts.sids[n], "/64"), alloc.prefixes[n],
                    HostAddr(facts, alloc.prefixes[n], 1).value, facts.locators[n]))
  }

  /** The spine whose leg the pins of a node use: the preferred one, else the
      first that has an address. */
  function PinSpine(spec: ServiceSpec, legs: map<string, string>): Option<string> {
    if spec.preferredSpine != "" then Some(spec.preferredSpine)
    else
      var links := set s | s in legs && legs[s] != "";
      if links == {} then None else Some(SortedKeys(links)[0])
  }

  function PinLink(spec: ServiceSpec, facts: Facts, n: Node): Option<string> {
    if n !in facts.spineLinks || facts.spineLinks[n] == map[] then None
    else
      var legs := facts.spineLinks[n];
      match PinSpine(spec, legs)
      case None => None
      case Some(s) => if s in legs && legs[s] != "" then Some(legs[s]) else None
  }

  /** The identifiers of a service and the order of its two nodes. */
  datatype Frame = Frame(vrf: string, first: Node, second: Node)

  /** The refusals that come before any node is looked at. */
  function FrameOf(spec: ServiceSpec, alloc: Allocations, facts: Facts): (r: Option<Frame>)
    ensures r.Some? ==> |spec.attachments| == 2 && alloc.id > 0 && r.value.first != r.value.second
    ensures r.Some? ==> {r.value.first, r.value.second} == {spec.attachments[0].node, spec.attachments[1].node}
    ensures r.Some? ==> Le(r.value.first, r.value.second)
  {
    if !(spec.construct == "ip-vrf" && spec.signalling == "vpn") then None
    else if facts.nodeKind !in ["", "sonic-vm", "sonic-vs"] || facts.ports == map[] || |spec.attachments| != 2 then None
    else
      var a, b := spec.attachments[0].node, spec.attachments[1].node;
      if a == "" || b == "" || a == b || alloc.id <= 0 then None
      else if alloc.vrf != "" && alloc.vrf != "Vrf" + Itoa(alloc.id) then None
      else
        LeTotal(a, b);
        Some(if Le(a, b) then Frame("Vrf" + Itoa(alloc.id), a, b) else Frame("Vrf" + Itoa(alloc.id), b, a))
  }

  predicate SteeredIngress(spec: ServiceSpec, frame: Frame, n: Node) {
    spec.preferredSpine != "" && n == frame.first
  }

  function NodeOps(spec: ServiceSpec, frame: Frame, n: Node, self: Attach, peer: Attach, link: string, addr: string): seq<Op> {
    [Gcu([AddRow(VrfRow(frame.vrf), map[])]),
     Gcu([AddRow(InterfaceRow(self.port), map["vrf_name" := frame.vrf]), AddRow(AddressRow(self.port, self.gw), map[])]),
     Shell([ReplaceDecap(self.sid, frame.vrf)]),
     Shell([ReplaceEncap(frame.vrf, peer.client, peer.sidFn)]),
     Shell([ReplaceLocatorPin(peer.loc, link)])]
    + (if SteeredIngress(spec, frame, n) then [Shell([ReplacePreferredPin(peer.sidFn, link)])] else [])
    + [OnClient(n + "/" + self.logic, [FlushClient, AddClientAddress(addr), DefaultVia(TrimSuffix(self.gw, "/24"))])]
  }

  function NodeChecks(spec: ServiceSpec, frame: Frame, n: Node, self: Attach, peer: Attach, link: string, addr: string): seq<Check> {
    [RowExists(VrfRow(frame.vrf)), PortAddress(self.port, self.gw), PortMaster(self.port, frame.vrf), VrfDeviceUp(frame.vrf),
     DecapShown(self.sid), EncapShown(frame.vrf, peer.sidFn), LocatorPinShown(peer.loc, link),
     ClientAddress(n + "/" + self.logic, addr)]
    + (if SteeredIngress(spec, frame, n) then [PreferredPinShown(peer.sidFn, link)] else [])
  }

  function NodeRollback(spec: ServiceSpec, frame: Frame, n: Node, self: Attach, peer: Attach): seq<Op> {
    [Shell((if SteeredIngress(spec, frame, n) then [DeleteRoute(peer.sidFn)] else [])
           + [DeleteVrfRoute(frame.vrf, peer.client), DeleteRoute(self.sid), DeleteRoute(peer.loc)]),
     Gcu([RemoveRow(AddressRow(self.port, self.gw)), RemoveRow(InterfaceRow(self.port))]),
     Gcu([RemoveVrfTable]),
     Shell([FlushPort(self.port)]),
     OnClient(n + "/" + self.logic, [FlushClient])]
  }

  function NodePlanOf(spec: ServiceSpec, alloc: Allocations, facts: Facts, frame: Frame, n: Node): Option<NodePlan>
    requires |spec.attachments| == 2
  {
    var peerNode := if n == frame.first then frame.second else frame.first;
    match (AttachOf(spec, alloc, facts, n), AttachOf(spec, alloc, facts, peerNode), PinLink(spec, facts, n))
    case (Some(self), Some(peer), Some(link)) =>
      (match HostAddr(facts, self.client, 2)
       case None => None
       case Some(addr) => Some(NodePlan(NodeOps(spec, frame, n, self, peer, link, addr),
                                        NodeChecks(spec, frame, n, self, peer, link, addr),
                                        NodeRollback(spec, frame, n, self, peer))))
    case _ => None
  }

  function RenderIn(spec: ServiceSpec, alloc: Allocations, facts: Facts, frame: Frame): Option<Plan>
    requires |spec.attachments| == 2
  {
    var p, q := NodePlanOf(spec, alloc, facts, frame, frame.first), NodePlanOf(spec, alloc, facts, frame, frame.second);
    if p.Some? && q.Some? then Some(Plan(map[frame.first := p.value, frame.second := q.value])) else None
  }

  /** The plan a service renders to; None stands for every refusal. */
  function Render(spec: ServiceSpec, alloc: Allocations, facts: Facts): (r: Option<Plan>) {
    match FrameOf(spec, alloc, facts)
    case None => None
    case Some(frame) => RenderIn(spec, alloc, facts, frame)
  }

  /** ForSRv6Service as the source builds it: the attachments first, then each
      node's ops, checks and rollback appended in turn. */
  method ForSRv6Service(spec: ServiceSpec, alloc: Allocations, facts: Facts) returns (plan: Option<Plan>)
    ensures plan == Render(spec, alloc, facts)
  {
    var frame := FrameOf(spec, alloc, facts);
    if frame.None? { return None; }
    plan := ForFrame(spec, alloc, facts, frame.value);
  }

  method ForFrame(spec: ServiceSpec, alloc: Allocations, facts: Facts, frame: Frame) returns (plan: Option<Plan>)
    requires |spec.attachments| == 2 && frame.first != frame.second
    ensures plan == RenderIn(spec, alloc, facts, frame)
  {
    var nodes := [frame.first, frame.second];
    var at := Attachments(spec, alloc, facts, nodes);
    if at.None? {
      AttachNeeded(spec, alloc, facts, frame);
      return None;
    }
    var out := RenderNodes(spec, alloc, facts, frame, nodes, at.value);
    if out.None? { return None; }
    BothRendered(spec, alloc, facts, frame, out.value);
    plan := Some(Plan(out.value));
  }

  lemma AttachNeeded(spec: ServiceSpec, alloc: Allocations, facts: Facts, frame: Frame)
    requires |spec.attachments| == 2
    requires AttachOf(spec, alloc, facts, frame.first).None? || AttachOf(spec, alloc, facts, frame.second).None?
    ensures RenderIn(spec, alloc, facts, frame).None?
  {
  }

  lemma BothRendered(spec: ServiceSpec, alloc: Allocations, facts: Facts, frame: Frame, out: map<Node, NodePlan>)
    requires |spec.attachments| == 2 && frame.first != frame.second && out.Keys == {frame.first, frame.second}
    requires NodePlanOf(spec, alloc, facts, frame, frame.first) == Some(out[frame.first])
    requires NodePlanOf(spec, alloc, facts, frame, frame.second) == Some(out[frame.second])
    ensures RenderIn(spec, alloc, facts, frame) == Some(Plan(out))
  {
    TwoEntries(out, frame.first, frame.second);
  }

  lemma TwoEntries<V>(m: map<Node, V>, a: Node, b: Node)
    requires m.Keys == {a, b} && a != b
    ensures m == map[a := m[a], b := m[b]]
  {
    var want := map[a := m[a], b := m[b]];
    assert want.Keys == m.Keys;
  }

  method RenderNodes(spec: ServiceSpec, alloc: Allocations, facts: Facts, frame: Frame, nodes: seq<Node>, at: map<Node, Attach>)
    returns (out: Option<map<Node, NodePlan>>)
    requires |spec.attachments| == 2 && nodes == [frame.first, frame.second]
    requires forall m :: m in nodes ==> m in at && AttachOf(spec, alloc, facts, m) == Some(at[m])
    ensures out.None? ==> NodePlanOf(spec, alloc, facts, frame, frame.first).None? || NodePlanOf(spec, alloc, facts, frame, frame.second).None?
    ensures out.Some? ==> out.value.Keys == {nodes[0], nodes[1]}
    ensures out.Some? ==> forall n :: n in nodes ==> n in out.value && NodePlanOf(spec, alloc, facts, frame, n) == Some(out.value[n])
  {
    var done: map<Node, NodePlan> := map[];
    for i := 0 to |nodes|
      invariant done.Keys == set n | n in nodes[..i]
      invariant forall n :: n in nodes[..i] ==> NodePlanOf(spec, alloc, facts, frame, n) == Some(done[n])
    {
      assert nodes[..i + 1] == nodes[..i] + [nodes[i]];
      var np := RenderNode(spec, alloc, facts, frame, nodes[i], at);
      if np.None? { return None; }
      done := done[nodes[i] := np.value];
    }
    assert nodes[..|nodes|] == nodes;
    out := Some(done);
  }

  method Attachments(spec: ServiceSpec, alloc: Allocations, facts: Facts, nodes: seq<Node>) returns (at: Option<map<Node, Attach>>)
    requires |spec.attachments| == 2
    ensures at.None? ==> exists i :: 0 <= i < |nodes| && AttachOf(spec, alloc, facts, nodes[i]).None?
    ensures at.Some? ==> forall n :: n in nodes ==> n in at.value && AttachOf(spec, alloc, facts, n) == Some(at.value[n])
  {
    var found: map<Node, Attach> := map[];
    for i := 0 to |nodes|
      invariant forall j :: 0 <= j < i ==> nodes[j] in found && AttachOf(spec, alloc, facts, nodes[j]) == Some(found[nodes[j]])
    {
      var a := AttachOf(spec, alloc, facts, nodes[i]);
      if a.None? { return None; }
      found := found[nodes[i] := a.value];
    }
    at := Some(found);
  }

  method RenderNode(spec: ServiceSpec, alloc: Allocations, facts: Facts, frame: Frame, n: Node, at: map<Node, Attach>)
    returns (np: Option<NodePlan>)
    requires |spec.attachments| == 2 && n in [frame.first, frame.second]
    requires forall m :: m in [frame.first, frame.second] ==> m in at && AttachOf(spec, alloc, facts, m) == Some(at[m])
    ensures np == NodePlanOf(spec, alloc, facts, frame, n)
  {
    var peerNode := if n == frame.first then frame.second else frame.first;
    assert peerNode in [frame.first, frame.second];
    var self, peer := at[n], at[peerNode];
    var link := PinLink(spec, facts, n);
    if link.None? { return None; }
    var addr := HostAddr(facts, self.client, 2);
    if addr.None? { return None; }
    var body := AppendNode(spec, frame, n, self, peer, link.value, addr.value);
    np := Some(body);
  }

  method AppendNode(spec: ServiceSpec, frame: Frame, n: Node, self: Attach, peer: Attach, link: string, addr: string) returns (np: NodePlan)
    ensures np == NodePlan(NodeOps(spec, frame, n, self, peer, link, addr), NodeChecks(spec, frame, n, self, peer, link, addr),
                           NodeRollback(spec, frame, n, self, peer))
  {
    var steered := spec.preferredSpine != "" && n == frame.first;
    var probe := n + "/" + self.logic;
    var ops := [Gcu([AddRow(VrfRow(frame.vrf), map[])])];
    ops := ops + [Gcu([AddRow(InterfaceRow(self.port), map["vrf_name" := frame.vrf]), AddRow(AddressRow(self.port, self.gw), map[])])];
    ops := ops + [Shell([ReplaceDecap(self.sid, frame.vrf)])];
    ops := ops + [Shell([ReplaceEncap(frame.vrf, peer.client, peer.sidFn)])];
    ops := ops + [Shell([ReplaceLocatorPin(peer.loc, link)])];
    if steered { ops := ops + [Shell([ReplacePreferredPin(peer.sidFn, link)])]; }
    ops := ops + [OnClient(probe, [FlushClient, AddClientAddress(addr), DefaultVia(TrimSuffix(self.gw, "/24"))])];
    var checks := [RowExists(VrfRow(frame.vrf)), PortAddress(self.port, self.gw), PortMaster(self.port, frame.vrf),
                   VrfDeviceUp(frame.vrf), DecapShown(self.sid), EncapShown(frame.vrf, peer.sidFn),
                   LocatorPinShown(peer.loc, link), ClientAddress(probe, addr)];
    if steered { checks := checks + [PreferredPinShown(peer.sidFn, link)]; }
    var shell := if steered then [DeleteRoute(peer.sidFn)] else [];
    shell := shell + [DeleteVrfRoute(frame.vrf, peer.client), DeleteRoute(self.sid), DeleteRoute(peer.loc)];
    var rollback := [Shell(shell)];
    rollback := rollback + [Gcu([RemoveRow(AddressRow(self.port, self.gw)), RemoveRow(InterfaceRow(self.port))]), Gcu([RemoveVrfTable]),
                            Shell([FlushPort(self.port)]), OnClient(probe, [FlushClient])];
    np := NodePlan(ops, checks, rollback);
  }
}
