/** ForNetwork as the source runs it: maps filled in loops, each node's plan
    appended to in place, the lists bound node by node in map order. */
module NetworkBuild {
  import opened Text
  import opened SiteNames
  import opened NetworkModel
  import opened L3Vlans
  import opened NetworkRender
  import opened NetworkLaws

  method CollectRouters(rs: seq<Router>) returns (m: Option<map<string, Router>>)
    ensures m.None? <==> exists r :: r in rs && r.name == ""
    ensures m.Some? ==> m.value == RouterMap(rs)
  {
    var found: map<string, Router> := map[];
    for i := 0 to |rs|
      invariant found == RouterMap(rs[..i]) && forall j :: 0 <= j < i ==> rs[j].name != ""
    {
      if rs[i].name == "" { return None; }
      assert rs[..i + 1][..i] == rs[..i];
      found := found[rs[i].name := rs[i]];
    }
    assert rs[..|rs|] == rs;
    m := Some(found);
  }

  /** The owner of each derived VLAN, in name order; a second owner is refused. */
  method CheckL3Vlans(routers: map<string, Router>) returns (ok: bool)
    ensures ok <==> L3VlansApart(routers)
  {
    var names := SortedKeys(routers.Keys);
    var owner: map<int, string> := map[];
    for i := 0 to |names|
      invariant Owned(routers, owner, names[..i])
    {
      assert names[i] in names && names[i] !in names[..i];
      var r := routers[names[i]];
      OwnedNext(routers, owner, names, i);
      if r.l3vni != 0 {
        var vlan := L3VlanForVni(r.l3vni);
        if vlan.None? { return false; }
        if vlan.value in owner { return false; }
        owner := owner[vlan.value := names[i]];
      }
    }
    assert names[..|names|] == names;
    ok := true;
  }

  /** The VLANs taken so far, each by the one router that derives it. */
  ghost predicate Owned(routers: map<string, Router>, owner: map<int, string>, seen: seq<string>)
    requires forall n :: n in seen ==> n in routers
  {
    && (forall v :: v in owner ==> owner[v] in seen && routers[owner[v]].l3vni != 0 && L3VlanForVni(routers[owner[v]].l3vni) == Some(v))
    && (forall n :: n in seen && routers[n].l3vni != 0 ==>
          L3VlanForVni(routers[n].l3vni).Some? && L3VlanForVni(routers[n].l3vni).value in owner
          && owner[L3VlanForVni(routers[n].l3vni).value] == n)
  }

  lemma OwnedNext(routers: map<string, Router>, owner: map<int, string>, names: seq<string>, i: nat)
    requires i < |names| && (forall n :: n in names ==> n in routers) && names[i] !in names[..i] && Owned(routers, owner, names[..i])
    ensures routers[names[i]].l3vni == 0 ==> Owned(routers, owner, names[..i + 1])
    ensures routers[names[i]].l3vni != 0 && L3VlanForVni(routers[names[i]].l3vni).Some?
            && L3VlanForVni(routers[names[i]].l3vni).value !in owner ==>
      Owned(routers, owner[L3VlanForVni(routers[names[i]].l3vni).value := names[i]], names[..i + 1])
  {
    assert names[..i + 1] == names[..i] + [names[i]];
  }

  method CollectDomains(bds: seq<BridgeDomain>) returns (m: Option<map<int, BridgeDomain>>)
    ensures m.None? <==> exists bd :: bd in bds && bd.vlan > Base
    ensures m.Some? ==> m.value == DomainMap(bds)
  {
    var found: map<int, BridgeDomain> := map[];
    for i := 0 to |bds|
      invariant found == DomainMap(bds[..i]) && forall j :: 0 <= j < i ==> bds[j].vlan <= Base
    {
      assert bds[..i + 1][..i] == bds[..i];
      if bds[i].vlan != 0 {
        if bds[i].vlan > Base { return None; }
        found := found[bds[i].vlan := bds[i]];
      }
    }
    assert bds[..|bds|] == bds;
    m := Some(found);
  }

  method CollectVlans(vs: seq<LocalVlan>) returns (m: Option<map<int, LocalVlan>>)
    ensures m.None? <==> exists v :: v in vs && v.vlan > Base
    ensures m.Some? ==> m.value == VlanMap(vs)
  {
    var found: map<int, LocalVlan> := map[];
    for i := 0 to |vs|
      invariant found == VlanMap(vs[..i]) && forall j :: 0 <= j < i ==> vs[j].vlan <= Base
    {
      assert vs[..i + 1][..i] == vs[..i];
      if vs[i].vlan != 0 {
        if vs[i].vlan > Base { return None; }
        found := found[vs[i].vlan := vs[i]];
      }
    }
    assert vs[..|vs|] == vs;
    m := Some(found);
  }

  /** The switch over one attachment. */
  method RenderAttachment(net: Network, routers: map<string, Router>, bds: map<int, BridgeDomain>, vls: map<int, LocalVlan>,
                          att: NetAttachment, opts: Options) returns (more: Option<NodePlan>)
    requires routers == RouterMap(net.routers) && bds == DomainMap(net.bridgeDomains) && vls == VlanMap(net.vlans)
    ensures more == RenderOne(net, att, opts)
  {
    if att.vrf != "" {
      if att.vrf !in routers { return None; }
      return RenderL3(routers[att.vrf], att, opts);
    }
    if att.vlan != 0 {
      if att.vlan in bds {
        var bd := bds[att.vlan];
        if bd.irb.None? { return RenderL2(bd, att, opts); }
        if bd.irb.value.vrf !in routers { return None; }
        return RenderIrb(bd, bd.irb.value, routers[bd.irb.value.vrf], att, opts);
      }
      if att.vlan in vls { return RenderVlan(vls[att.vlan], att, opts); }
      return None;
    }
    if |net.accessLists| > 0 { return Some(EmptyPlan); }
    more := None;
  }

  method RenderAttachments(net: Network, routers: map<string, Router>, bds: map<int, BridgeDomain>, vls: map<int, LocalVlan>,
                           atts: seq<NetAttachment>, opts: Options) returns (plan: Option<Plan>)
    requires routers == RouterMap(net.routers) && bds == DomainMap(net.bridgeDomains) && vls == VlanMap(net.vlans)
    ensures plan == RenderAtts(net, atts, opts)
  {
    var nodes: Plan := map[];
    for i := 0 to |atts|
      invariant RenderAtts(net, atts[..i], opts) == Some(nodes)
    {
      assert atts[..i + 1][..i] == atts[..i];
      var np := NodeOf(nodes, atts[i].node);
      var more := RenderAttachment(net, routers, bds, vls, atts[i], opts);
      if more.None? {
        RefusedStays(net, atts, i + 1, opts);
        return None;
      }
      nodes := nodes[atts[i].node := Append(np, more.value)];
    }
    assert atts[..|atts|] == atts;
    plan := Some(nodes);
  }

  lemma {:induction false} RefusedStays(net: Network, atts: seq<NetAttachment>, i: nat, opts: Options)
    requires i <= |atts| && RenderAtts(net, atts[..i], opts).None?
    ensures RenderAtts(net, atts, opts).None?
    decreases |atts|
  {
    if i == |atts| {
      assert atts[..i] == atts;
    } else {
      assert atts[..|atts| - 1][..i] == atts[..i];
      RefusedStays(net, atts[..|atts| - 1], i, opts);
    }
  }

  /** dedupStrings: what a list of ports comes to, before it is sorted. */
  function Elems(ports: seq<string>): set<string> {
    set p | p in ports
  }

  function Bound(byNode: map<Node, seq<string>>, n: Node): set<string> {
    if n in byNode then Elems(byNode[n]) else {}
  }

  lemma ElemsNext(ports: seq<string>, p: string)
    ensures Elems(ports + [p]) == Elems(ports) + {p}
  {
  }

  function NodesOf(atts: seq<NetAttachment>): set<Node> {
    set att | att in atts :: att.node
  }

  /** The ports of some attachments, node by node. */
  ghost predicate Collected(byNode: map<Node, seq<string>>, atts: seq<NetAttachment>, opts: Options) {
    byNode.Keys == NodesOf(atts) && forall n :: Bound(byNode, n) == PortsOn(atts, n, opts)
  }

  /** The ports bound on each node, by attachment order. */
  method CollectPorts(atts: seq<NetAttachment>, opts: Options) returns (ports: Option<map<Node, seq<string>>>)
    ensures ports.None? <==> !PortsResolve(atts, opts)
    ensures ports.Some? ==> Collected(ports.value, atts, opts)
  {
    var byNode: map<Node, seq<string>> := map[];
    NothingCollected(opts);
    assert atts[..0] == [];
    for i := 0 to |atts|
      invariant PortsResolve(atts[..i], opts) && Collected(byNode, atts[..i], opts)
    {
      assert atts[i] in atts;
      var port := Port(opts.ports, atts[i].attachment);
      if port.None? { return None; }
      assert atts[..i + 1] == atts[..i] + [atts[i]];
      byNode := AddPort(atts[..i], atts[i], opts, byNode, port.value);
    }
    assert atts[..|atts|] == atts;
    ports := Some(byNode);
  }

  lemma NothingCollected(opts: Options)
    ensures Collected(map[], [], opts)
  {
  }

  method AddPort(atts: seq<NetAttachment>, att: NetAttachment, opts: Options, byNode: map<Node, seq<string>>, port: string)
    returns (next: map<Node, seq<string>>)
    requires Port(opts.ports, att.attachment) == Some(port) && Collected(byNode, atts, opts)
    ensures Collected(next, atts + [att], opts)
  {
    var sofar := if att.node in byNode then byNode[att.node] else [];
    next := byNode[att.node := sofar + [port]];
    ElemsNext(sofar, port);
    assert Elems([]) == {};
    forall n ensures Bound(next, n) == PortsOn(atts + [att], n, opts) { PortsOnNext(atts, att, opts, port, n); }
    assert NodesOf(atts + [att]) == NodesOf(atts) + {att.node};
  }

  lemma PortsOnNext(atts: seq<NetAttachment>, att: NetAttachment, opts: Options, port: string, n: Node)
    requires Port(opts.ports, att.attachment) == Some(port)
    ensures PortsOn(atts + [att], n, opts) == PortsOn(atts, n, opts) + (if n == att.node then {port} else {})
  {
  }

  /** Each list on each node, the nodes in whatever order the map yields. */
  method BindList(al: AccessList, plan: Plan, ports: map<Node, seq<string>>, net: Network) returns (out: Option<Plan>)
    requires ports.Keys == plan.Keys
    ensures out.None? <==> exists n :: n in plan && RenderAcl(al, SortedKeys(Elems(ports[n])), net).None?
    ensures out.Some? ==> out.value.Keys == plan.Keys
    ensures out.Some? ==> forall n :: n in plan ==>
      RenderAcl(al, SortedKeys(Elems(ports[n])), net).Some?
      && out.value[n] == Append(plan[n], RenderAcl(al, SortedKeys(Elems(ports[n])), net).value)
  {
    var nodes := plan;
    var todo := plan.Keys;
    while todo != {}
      invariant todo <= plan.Keys == nodes.Keys
      invariant forall n :: n in todo ==> nodes[n] == plan[n]
      invariant forall n :: n in plan && n !in todo ==>
        RenderAcl(al, SortedKeys(Elems(ports[n])), net).Some?
        && nodes[n] == Append(plan[n], RenderAcl(al, SortedKeys(Elems(ports[n])), net).value)
      decreases |todo|
    {
      var n :| n in todo;
      var more := RenderAcl(al, SortedKeys(Elems(ports[n])), net);
      if more.None? { return None; }
      nodes := nodes[n := Append(nodes[n], more.value)];
      todo := todo - {n};
    }
    out := Some(nodes);
  }

  /** Every node has its attachments' plan and the first lists. */
  ghost predicate AllListed(net: Network, plan: Plan, atts: seq<NetAttachment>, opts: Options, i: nat, nodes: Plan)
    requires i <= |net.accessLists|
  {
    && nodes.Keys == plan.Keys
    && forall n :: n in plan ==> Listed(net, net.accessLists, i, PortsFor(atts, n, opts), opts, plan[n], nodes[n])
  }

  method BindNext(net: Network, plan: Plan, atts: seq<NetAttachment>, opts: Options, i: nat, nodes: Plan, ports: map<Node, seq<string>>)
    returns (next: Option<Plan>)
    requires i < |net.accessLists| && AllListed(net, plan, atts, opts, i, nodes)
    requires ports.Keys == plan.Keys && forall n :: Bound(ports, n) == PortsOn(atts, n, opts)
    ensures next.None? ==> exists n :: n in plan && RenderAcls(net, net.accessLists, PortsFor(atts, n, opts), opts).None?
    ensures next.Some? ==> AllListed(net, plan, atts, opts, i + 1, next.value)
  {
    forall n | n in plan ensures SortedKeys(Elems(ports[n])) == PortsFor(atts, n, opts) { assert Bound(ports, n) == Elems(ports[n]); }
    next := BindList(net.accessLists[i], nodes, ports, net);
    if next.None? {
      ghost var n :| n in nodes && RenderAcl(net.accessLists[i], SortedKeys(Elems(ports[n])), net).None?;
      ListRefused(net, net.accessLists, i, PortsFor(atts, n, opts), opts);
      return;
    }
    forall n | n in plan ensures Listed(net, net.accessLists, i + 1, PortsFor(atts, n, opts), opts, plan[n], next.value[n]) {
      ListNext(net, net.accessLists, i, PortsFor(atts, n, opts), opts, plan[n], nodes[n], next.value[n]);
    }
  }

  /** The lists in turn. */
  method BindLists(net: Network, plan: Plan, atts: seq<NetAttachment>, opts: Options) returns (out: Option<Plan>)
    requires plan.Keys == NodesOf(atts)
    ensures out == BindAcls(net, plan, atts, opts)
  {
    if net.accessLists == [] { return Some(plan); }
    var ports := CollectPorts(atts, opts);
    if ports.None? { return None; }
    var nodes := plan;
    forall n | n in plan ensures Listed(net, net.accessLists, 0, PortsFor(atts, n, opts), opts, plan[n], plan[n]) { NoneListed(net, PortsFor(atts, n, opts), opts, plan[n]); }
    for i := 0 to |net.accessLists|
      invariant AllListed(net, plan, atts, opts, i, nodes)
    {
      var next := BindNext(net, plan, atts, opts, i, nodes, ports.value);
      if next.None? { return None; }
      nodes := next.value;
    }
    AllBound(net, plan, atts, opts, nodes);
    out := Some(nodes);
  }

  lemma NoneListed(net: Network, ports: seq<string>, opts: Options, start: NodePlan)
    ensures Listed(net, net.accessLists, 0, ports, opts, start, start)
  {
    assert net.accessLists[..0] == [];
    assert Append(start, EmptyPlan) == start;
  }

  lemma AllBound(net: Network, plan: Plan, atts: seq<NetAttachment>, opts: Options, nodes: Plan)
    requires net.accessLists != [] && PortsResolve(atts, opts) && AllListed(net, plan, atts, opts, |net.accessLists|, nodes)
    ensures BindAcls(net, plan, atts, opts) == Some(nodes)
  {
    assert net.accessLists[..|net.accessLists|] == net.accessLists;
    forall n | n in plan
      ensures RenderAcls(net, net.accessLists, PortsFor(atts, n, opts), opts).Some?
      ensures nodes[n] == Append(plan[n], RenderAcls(net, net.accessLists, PortsFor(atts, n, opts), opts).value)
    {
      assert Listed(net, net.accessLists, |net.accessLists|, PortsFor(atts, n, opts), opts, plan[n], nodes[n]);
    }
    assert BindAcls(net, plan, atts, opts).Some?;
    assert BindAcls(net, plan, atts, opts).value == nodes;
  }

  function PortsFor(atts: seq<NetAttachment>, n: Node, opts: Options): seq<string> {
    SortedKeys(PortsOn(atts, n, opts))
  }

  /** A node's plan after the first lists. */
  ghost predicate Listed(net: Network, als: seq<AccessList>, i: nat, ports: seq<string>, opts: Options, start: NodePlan, now: NodePlan)
    requires i <= |als|
  {
    var acls := RenderAcls(net, als[..i], ports, opts);
    acls.Some? && now == Append(start, acls.value)
  }

  lemma ListNext(net: Network, als: seq<AccessList>, i: nat, ports: seq<string>, opts: Options,
                 start: NodePlan, before: NodePlan, now: NodePlan)
    requires i < |als| && Listed(net, als, i, ports, opts, start, before)
    requires RenderAcl(als[i], ports, net).Some? && now == Append(before, RenderAcl(als[i], ports, net).value)
    ensures Listed(net, als, i + 1, ports, opts, start, now)
  {
    assert als[..i + 1][..i] == als[..i];
    var acls, more := RenderAcls(net, als[..i], ports, opts).value, RenderAcl(als[i], ports, net).value;
    AppendAssoc(start, acls, more);
  }

  lemma AppendAssoc(a: NodePlan, b: NodePlan, c: NodePlan)
    ensures Append(Append(a, b), c) == Append(a, Append(b, c))
  {
  }

  lemma {:induction false} ListRefused(net: Network, als: seq<AccessList>, i: nat, ports: seq<string>, opts: Options)
    requires i < |als| && RenderAcl(als[i], ports, net).None?
    ensures RenderAcls(net, als, ports, opts).None?
    decreases |als|
  {
    if i < |als| - 1 { ListRefused(net, als[..|als| - 1], i, ports, opts); }
  }

  /** sort.Slice over the attachments, by node and then by name. */
  method SortAttachments(atts: seq<NetAttachment>) returns (sorted: seq<NetAttachment>)
    ensures sorted == SortAtts(atts)
  {
    sorted := [];
    for i := |atts| downto 0
      invariant sorted == SortAtts(atts[i..])
    {
      assert atts[i..][1..] == atts[i + 1..];
      sorted := Insert(atts[i], sorted);
    }
  }

  /** The checks and maps that come before the attachments. */
  method Admit(net: Network, opts: Options)
    returns (ok: bool, routers: map<string, Router>, bds: map<int, BridgeDomain>, vls: map<int, LocalVlan>)
    ensures ok <==> Admissible(net, opts)
    ensures ok ==> routers == RouterMap(net.routers) && bds == DomainMap(net.bridgeDomains) && vls == VlanMap(net.vlans)
  {
    ok, routers, bds, vls := false, map[], map[], map[];
    if opts.ports == map[] || opts.nodeKind !in ["", "sonic-vs", "sonic-vm"] { return; }
    var rs := CollectRouters(net.routers);
    if rs.None? { return; }
    var apart := CheckL3Vlans(rs.value);
    if !apart { return; }
    var ds := CollectDomains(net.bridgeDomains);
    if ds.None? { return; }
    var vs := CollectVlans(net.vlans);
    if vs.None? { return; }
    ok, routers, bds, vls := true, rs.value, ds.value, vs.value;
  }

  /** ForNetwork. */
  method BuildPlan(net: Network, opts0: Options) returns (plan: Option<Plan>)
    ensures plan == ForNetwork(net, opts0)
  {
    var opts := if opts0.vtep == "" then opts0.(vtep := "vtep1") else opts0;
    var ok, routers, bds, vls := Admit(net, opts);
    if !ok { return None; }
    var atts := SortAttachments(net.attachments);
    var nodes := RenderAttachments(net, routers, bds, vls, atts, opts);
    if nodes.None? { return None; }
    PlanNodes(net, atts, opts);
    var bound := BindLists(net, nodes.value, atts, opts);
    plan := if bound.None? || bound.value == map[] then None else bound;
  }

  lemma PlanNodes(net: Network, atts: seq<NetAttachment>, opts: Options)
    requires RenderAtts(net, atts, opts).Some?
    ensures RenderAtts(net, atts, opts).value.Keys == NodesOf(atts)
  {
    NodesOfAtts(net, atts, opts);
    forall n ensures n in RenderAtts(net, atts, opts).value.Keys <==> n in NodesOf(atts) {
      assert n in RenderAtts(net, atts, opts).value <==> Names(atts, n);
      if Names(atts, n) {
        var i :| 0 <= i < |atts| && atts[i].node == n;
        assert atts[i] in atts;
      }
      if n in NodesOf(atts) {
        var att :| att in atts && att.node == n;
        var i :| 0 <= i < |atts| && atts[i] == att;
        assert Names(atts, n);
      }
    }
  }
}
