/** Translate: a validated input to the Network it becomes, and the two laws that
    join the validator, the translator and the renderer. */
module Translate {
  import opened Text
  import opened SiteNames
  import opened NetworkModel
  import opened NetworkRender
  import opened NetworkChecks
  import opened NetworkLaws
  import opened Intent
  import opened IntentCheck

  function EndpointVlan(eps: seq<Endpoint>): int {
    if eps == [] then 0 else eps[0].vlan
  }

  function AttachmentsForL2(eps: seq<Endpoint>): seq<NetAttachment> {
    seq(|eps|, i requires 0 <= i < |eps| => NetAttachment(eps[i].node, eps[i].attachment, "", eps[i].vlan))
  }

  function AttachmentsForL3(eps: seq<Endpoint>, vrf: string): seq<NetAttachment> {
    seq(|eps|, i requires 0 <= i < |eps| => NetAttachment(eps[i].node, eps[i].attachment, vrf, 0))
  }

  function AttachmentsForPorts(eps: seq<Endpoint>): seq<NetAttachment> {
    seq(|eps|, i requires 0 <= i < |eps| => NetAttachment(eps[i].node, eps[i].attachment, "", 0))
  }

  function RouterName(x: Input): string {
    "vrf-" + x.serviceId
  }

  function ConcatPrefixes(x: Input): seq<string> {
    match x.families case None => [] case Some(f) => f.v4 + f.v6
  }

  function AclRules(rules: seq<Rule>): (r: seq<AclRule>)
    ensures |r| == |rules|
  {
    seq(|rules|, i requires 0 <= i < |rules| =>
      AclRule(rules[i].name, rules[i].priority, rules[i].action, rules[i].protocol, rules[i].sourcePrefix, rules[i].destinationPrefix,
              rules[i].sourcePort, rules[i].destinationPort, rules[i].description))
  }

  function AccessListFor(a: Acl, serviceId: string): AccessList {
    AccessList(if a.name == "" then "acl-" + serviceId else a.name, a.stage, a.family, AclRules(a.rules), a.defaultAction)
  }

  function AccessListsOf(x: Input): seq<AccessList> {
    match x.acl case None => [] case Some(a) => [AccessListFor(a, x.serviceId)]
  }

  /** The Network of a service over the vxlan underlay. None where the source has
      no answer: an unknown type, or targets that are not there to read. */
  function ToNetwork(x: Input): (r: Option<Network>) {
    var base := Network("migr-" + x.serviceId, "kubenet-system", [], [], [], AccessListsOf(x), []);
    if x.kind == "vlan" then
      Some(base.(vlans := [LocalVlan("vlan-" + x.serviceId, EndpointVlan(x.endpoints))], attachments := AttachmentsForL2(x.endpoints)))
    else if x.kind == "mac-vrf" then
      if !x.hasTargets then None
      else
        var irb := match x.gateway case None => None case Some(g) => Some(Irb(RouterName(x), g.v4, g.v6));
        Some(base.(bridgeDomains := [BridgeDomain("bd-" + x.serviceId, EndpointVlan(x.endpoints), x.l2vni, irb)],
                   routers := if x.gateway.Some? then [Router(RouterName(x), x.l3vni, [])] else [],
                   attachments := AttachmentsForL2(x.endpoints)))
    else if x.kind == "ip-vrf" then
      if !x.hasTargets then None
      else Some(base.(routers := [Router(RouterName(x), x.l3vni, ConcatPrefixes(x))],
                      attachments := AttachmentsForL3(x.endpoints, RouterName(x))))
    else if x.kind == "acl" then Some(base.(attachments := AttachmentsForPorts(x.endpoints)))
    else None
  }

  /** The attachment builders append one entry an endpoint. */
  method BuildAttachments(eps: seq<Endpoint>, vrf: string, withVlan: bool) returns (out: seq<NetAttachment>)
    ensures !withVlan ==> out == AttachmentsForL3(eps, vrf)
    ensures !withVlan && vrf == "" ==> out == AttachmentsForPorts(eps)
    ensures withVlan && vrf == "" ==> out == AttachmentsForL2(eps)
  {
    out := [];
    for i := 0 to |eps|
      invariant |out| == i
      invariant forall j :: 0 <= j < i ==> out[j] == NetAttachment(eps[j].node, eps[j].attachment, vrf, if withVlan then eps[j].vlan else 0)
    {
      out := out + [NetAttachment(eps[i].node, eps[i].attachment, vrf, if withVlan then eps[i].vlan else 0)];
    }
  }

  // ---- validated input renders --------------------------------------------------------

  /** What the validator does not look at: the service id has a character a VRF
      name can keep, and routed prefixes and gateways parse. */
  predicate Renderable(x: Input, addr: string -> Addr) {
    && (x.kind == "ip-vrf" || (x.kind == "mac-vrf" && x.gateway.Some?) ==> exists i :: 0 <= i < |x.serviceId| && Usable(x.serviceId[i]))
    && (x.kind == "ip-vrf" ==> forall p :: p in ConcatPrefixes(x) && p != "" ==> addr(p) != NotAPrefix)
    && (x.kind == "mac-vrf" && x.gateway.Some? ==>
          (x.gateway.value.v4 != "" ==> addr(x.gateway.value.v4) != NotAPrefix)
          && (x.gateway.value.v6 != "" ==> addr(x.gateway.value.v6) != NotAPrefix))
  }

  lemma RouterNameDerives(id: string)
    requires id != ""
    ensures DeviceVrfName("vrf-" + id).Some? <==> exists i :: 0 <= i < |id| && Usable(id[i])
  {
    var name := "vrf-" + id;
    assert name[..4] == "vrf-" && name[4..] == id;
    assert Lower("vrf-") == "vrf-";
  }

  /** The site of the validator is the site of the renderer. */
  ghost predicate SameSite(env: Env, opts: Options) {
    && env.inventory.Some? && env.inventory.value.attachments == Known(opts.ports) && Known(opts.ports) != []
    && opts.nodeKind in ["", "sonic-vs", "sonic-vm"]
    && forall p :: opts.parses(p) <==> env.addr(p) != NotAPrefix
  }

  lemma PortsOfEndpoints(x: Input, env: Env, opts: Options, i: nat)
    requires EndpointsKnown(x.endpoints, env) && SameSite(env, opts) && i < |x.endpoints|
    ensures Port(opts.ports, x.endpoints[i].attachment).Some?
  {
    KnownNamesResolve(opts.ports, x.endpoints[i].attachment);
  }

  // Each construct: what one attachment renders to.

  lemma VlanRenders(x: Input, net: Network, att: NetAttachment, opts: Options)
    requires x.kind == "vlan" && VlanOk(x) && ToNetwork(x) == Some(net)
    requires att in net.attachments && Port(opts.ports, att.attachment).Some?
    ensures RenderOne(net, att, opts).Some?
  {
    var v := LocalVlan("vlan-" + x.serviceId, EndpointVlan(x.endpoints));
    assert net.vlans == [v] && [v][..0] == [];
    assert DomainMap([]) == map[] && RouterMap([]) == map[];
    assert VlanMap([v]) == map[v.vlan := v];
  }

  lemma MacVrfMaps(x: Input, net: Network)
    requires x.kind == "mac-vrf" && x.endpoints != [] && OneVlan(x.endpoints) && ToNetwork(x) == Some(net)
    ensures EndpointVlan(x.endpoints) in DomainMap(net.bridgeDomains)
    ensures DomainMap(net.bridgeDomains)[EndpointVlan(x.endpoints)] == net.bridgeDomains[0]
    ensures net.bridgeDomains[0].l2vni == x.l2vni
    ensures net.bridgeDomains[0].irb == (match x.gateway case None => None case Some(g) => Some(Irb(RouterName(x), g.v4, g.v6)))
    ensures x.gateway.Some? ==> RouterMap(net.routers) == map[RouterName(x) := Router(RouterName(x), x.l3vni, [])]
    ensures x.gateway.None? ==> RouterMap(net.routers) == map[]
  {
    var bd := net.bridgeDomains[0];
    assert net.bridgeDomains == [bd] && [bd][..0] == [];
    if x.gateway.Some? {
      var r := Router(RouterName(x), x.l3vni, []);
      assert net.routers == [r] && [r][..0] == [];
    }
  }

  lemma MacVrfAttaches(x: Input, net: Network, att: NetAttachment)
    requires x.kind == "mac-vrf" && MacVrfOk(x) && !Srv6(x) && x.endpoints != [] && ToNetwork(x) == Some(net) && att in net.attachments
    ensures att.vrf == "" && att.vlan == EndpointVlan(x.endpoints) && att.vlan != 0
  {
  }

  lemma MacVrfRenders(x: Input, net: Network, att: NetAttachment, env: Env, opts: Options)
    requires x.kind == "mac-vrf" && MacVrfOk(x) && !Srv6(x) && x.serviceId != "" && x.endpoints != [] && ToNetwork(x) == Some(net)
    requires SameSite(env, opts)
    requires att in net.attachments && Port(opts.ports, att.attachment).Some?
    ensures RenderOne(net, att, opts).Some? <==> Renderable(x, env.addr)
  {
    MacVrfMaps(x, net);
    MacVrfAttaches(x, net, att);
    if x.gateway.Some? { MacVrfRouted(x, net, att, env, opts); }
  }

  lemma MacVrfRouted(x: Input, net: Network, att: NetAttachment, env: Env, opts: Options)
    requires x.kind == "mac-vrf" && MacVrfOk(x) && !Srv6(x) && x.serviceId != "" && x.endpoints != [] && ToNetwork(x) == Some(net)
    requires SameSite(env, opts) && x.gateway.Some?
    requires att in net.attachments && Port(opts.ports, att.attachment).Some?
    ensures RenderOne(net, att, opts).Some? <==> Renderable(x, env.addr)
  {
    MacVrfMaps(x, net);
    MacVrfAttaches(x, net, att);
    RouterNameDerives(x.serviceId);
    GatewaysParse(x.gateway.value.v4, x.gateway.value.v6, env, opts);
    hide ToNetwork, DomainMap, RouterMap, EndpointVlan, DeviceVrfName, PrefixesParse;
  }

  lemma GatewaysParse(v4: string, v6: string, env: Env, opts: Options)
    requires SameSite(env, opts)
    ensures PrefixesParse([v4, v6], opts) <==> ((v4 != "" ==> env.addr(v4) != NotAPrefix) && (v6 != "" ==> env.addr(v6) != NotAPrefix))
  {
    assert v4 in [v4, v6] && v6 in [v4, v6];
  }

  lemma IpVrfRenders(x: Input, net: Network, att: NetAttachment, env: Env, opts: Options)
    requires x.kind == "ip-vrf" && IpVrfOk(x) && !Srv6(x) && x.serviceId != "" && ToNetwork(x) == Some(net)
    requires SameSite(env, opts)
    requires att in net.attachments && Port(opts.ports, att.attachment).Some?
    ensures RenderOne(net, att, opts).Some? <==> Renderable(x, env.addr)
  {
    var r := Router(RouterName(x), x.l3vni, ConcatPrefixes(x));
    assert net.routers == [r] && [r][..0] == [];
    assert RouterMap([r]) == map[RouterName(x) := r];
    assert att.vrf == RouterName(x) && RouterName(x) != "";
    RouterNameDerives(x.serviceId);
  }

  lemma AclRenders(x: Input, net: Network, att: NetAttachment, opts: Options)
    requires x.kind == "acl" && AclServiceOk(x) && ToNetwork(x) == Some(net) && att in net.attachments
    ensures RenderOne(net, att, opts) == Some(EmptyPlan)
  {
    assert net.accessLists != [];
  }

  lemma AttachmentResolves(x: Input, net: Network, att: NetAttachment, env: Env, opts: Options)
    requires EndpointsKnown(x.endpoints, env) && ToNetwork(x) == Some(net) && SameSite(env, opts) && att in net.attachments
    ensures Port(opts.ports, att.attachment).Some?
  {
    var i := AttachmentOf(x, net, att);
    PortsOfEndpoints(x, env, opts, i);
  }

  lemma AttachmentOf(x: Input, net: Network, att: NetAttachment) returns (i: nat)
    requires ToNetwork(x) == Some(net) && att in net.attachments
    ensures i < |x.endpoints| && att.attachment == x.endpoints[i].attachment
  {
    i :| 0 <= i < |net.attachments| && net.attachments[i] == att;
    assert |net.attachments| == |x.endpoints|;
  }

  lemma OneRenders(x: Input, net: Network, att: NetAttachment, env: Env, opts: Options)
    requires x.serviceId != "" && x.endpoints != [] && ConstructOk(x) && EndpointsKnown(x.endpoints, env)
    requires !Srv6(x) && ToNetwork(x) == Some(net) && SameSite(env, opts)
    requires att in net.attachments
    ensures Port(opts.ports, att.attachment).Some?
    ensures RenderOne(net, att, opts).Some? <==> Renderable(x, env.addr)
  {
    AttachmentResolves(x, net, att, env, opts);
    if x.kind == "vlan" { VlanRenders(x, net, att, opts); }
    else if x.kind == "mac-vrf" { MacVrfRenders(x, net, att, env, opts); }
    else if x.kind == "ip-vrf" { IpVrfRenders(x, net, att, env, opts); }
    else { AclRenders(x, net, att, opts); }
  }

  lemma {:induction false} AllRender(net: Network, atts: seq<NetAttachment>, opts: Options)
    ensures RenderAtts(net, atts, opts).Some? <==> forall i :: 0 <= i < |atts| ==> RenderOne(net, atts[i], opts).Some?
    decreases |atts|
  {
    if atts != [] {
      var rest := atts[..|atts| - 1];
      AllRender(net, rest, opts);
      assert forall i :: 0 <= i < |rest| ==> rest[i] == atts[i];
    }
  }

  lemma {:induction false} AclListsRender(net: Network, als: seq<AccessList>, ports: seq<string>, opts: Options)
    requires net.name != ""
    ensures RenderAcls(net, als, ports, opts).Some?
    decreases |als|
  {
    if als != [] { AclListsRender(net, als[..|als| - 1], ports, opts); }
  }

  lemma TranslatedRouters(x: Input, net: Network)
    requires x.serviceId != "" && ToNetwork(x) == Some(net) && (x.kind == "mac-vrf" ==> x.endpoints != [] && OneVlan(x.endpoints))
    ensures RouterMap(net.routers).Keys <= {RouterName(x)}
    ensures forall n :: n in RouterMap(net.routers) ==> RouterMap(net.routers)[n].l3vni == x.l3vni
    ensures forall r :: r in net.routers ==> r.name != ""
    ensures net.routers != [] ==> x.kind == "ip-vrf" || (x.kind == "mac-vrf" && x.gateway.Some?)
  {
    if net.routers != [] {
      var r := net.routers[0];
      assert net.routers == [r] && [r][..0] == [];
      assert RouterMap([r]) == map[r.name := r];
    } else {
      assert RouterMap([]) == map[];
    }
  }

  lemma TranslatedIsAdmissible(x: Input, net: Network, dup: bool, env: Env, opts: Options)
    requires Accepts(x, dup, env) && !Srv6(x) && ToNetwork(x) == Some(net) && SameSite(env, opts)
    ensures Admissible(net, opts)
  {
    TranslatedRouters(x, net);
    TranslatedIsUnreserved(x, net, dup, env);
    TranslatedBounds(x, net, dup, env, opts);
    if net.routers == [] { assert RouterMap(net.routers) == map[]; }
    hide ToNetwork, Accepts, RouterMap, Unreserved, SameSite;
    OneRouterApart(RouterMap(net.routers), RouterName(x));
  }

  lemma TranslatedIsUnreserved(x: Input, net: Network, dup: bool, env: Env)
    requires Accepts(x, dup, env) && !Srv6(x) && ToNetwork(x) == Some(net)
    ensures Unreserved(net)
  {
  }

  lemma TranslatedBounds(x: Input, net: Network, dup: bool, env: Env, opts: Options)
    requires Accepts(x, dup, env) && !Srv6(x) && ToNetwork(x) == Some(net) && SameSite(env, opts)
    ensures x.serviceId != "" && (x.kind == "mac-vrf" ==> x.endpoints != [] && OneVlan(x.endpoints))
    ensures opts.ports != map[] && opts.nodeKind in ["", "sonic-vs", "sonic-vm"]
    ensures net.routers != [] ==> 10000 <= x.l3vni <= 14094
  {
    assert opts.ports != map[] by { assert Known(opts.ports)[0] in Known(opts.ports); }
  }

  lemma OneRouterApart(rs: map<string, Router>, name: string)
    requires rs.Keys <= {name} && forall n :: n in rs ==> 10000 <= rs[n].l3vni <= 14094
    ensures L3VlansApart(rs)
  {
    forall a, b | a in rs && b in rs ensures a == b {
      assert a in rs.Keys && b in rs.Keys;
    }
  }

  lemma SortedHasSame(atts: seq<NetAttachment>, att: NetAttachment)
    ensures att in SortAtts(atts) <==> att in atts
  {
    SortSorts(atts);
    assert att in multiset(atts) <==> att in multiset(SortAtts(atts));
  }

  lemma TranslatedAttsRender(x: Input, net: Network, dup: bool, env: Env, opts: Options)
    requires Accepts(x, dup, env) && !Srv6(x) && ToNetwork(x) == Some(net) && SameSite(env, opts)
    ensures RenderAtts(net, SortAtts(net.attachments), opts).Some? <==> Renderable(x, env.addr)
    ensures RenderAtts(net, SortAtts(net.attachments), opts).Some? ==> RenderAtts(net, SortAtts(net.attachments), opts).value != map[]
    ensures PortsResolve(SortAtts(net.attachments), opts)
  {
    assert |net.attachments| == |x.endpoints| > 0;
    hide RenderOne, Renderable, SameSite, Port, Accepts, ToNetwork;
    var atts := SortAtts(net.attachments);
    AllRender(net, atts, opts);
    if RenderAtts(net, atts, opts).Some? { NodesOfAtts(net, atts, opts); }
    forall i | 0 <= i < |atts| ensures Port(opts.ports, atts[i].attachment).Some? && (RenderOne(net, atts[i], opts).Some? <==> Renderable(x, env.addr)) {
      SortedHasSame(net.attachments, atts[i]);
      assert atts[i] in atts;
      OneRenders(x, net, atts[i], env, opts);
    }
    assert |net.attachments| == |x.endpoints|;
    SortedHasSame(net.attachments, net.attachments[0]);
    var k :| 0 <= k < |atts| && atts[k] == net.attachments[0];
    assert Names(atts, atts[k].node);
    assert RenderAtts(net, atts, opts).Some? ==> atts[k].node in RenderAtts(net, atts, opts).value;
  }

  /** Every accepted service over the vxlan underlay translates, and what it
      translates to renders exactly when the service id can name a VRF and the
      routed prefixes and gateways parse. */
  lemma ValidatedRendersExactly(x: Input, dup: bool, env: Env, opts: Options)
    requires Accepts(x, dup, env) && !Srv6(x) && SameSite(env, opts)
    ensures ToNetwork(x).Some?
    ensures ForNetwork(ToNetwork(x).value, opts).Some? <==> Renderable(x, env.addr)
  {
    var net := ToNetwork(x).value;
    var o := WithDefaults(opts);
    var atts := SortAtts(net.attachments);
    TranslatedIsAdmissible(x, net, dup, env, o);
    TranslatedAttsRender(x, net, dup, env, o);
    AcceptedIsNamed(x, dup, env);
    hide ForNetwork, Renderable, Accepts, RenderAtts, Admissible, SameSite, Srv6, PortsResolve, WithDefaults;
    RendersWithAtts(net, opts);
  }

  lemma AcceptedIsNamed(x: Input, dup: bool, env: Env)
    requires Accepts(x, dup, env) && !Srv6(x)
    ensures ToNetwork(x).Some? && ToNetwork(x).value.name != ""
  {
  }

  lemma RendersWithAtts(net: Network, opts: Options)
    requires Admissible(net, WithDefaults(opts)) && net.name != ""
    requires PortsResolve(SortAtts(net.attachments), WithDefaults(opts))
    requires var r := RenderAtts(net, SortAtts(net.attachments), WithDefaults(opts)); r.Some? ==> r.value != map[]
    ensures ForNetwork(net, opts).Some? <==> RenderAtts(net, SortAtts(net.attachments), WithDefaults(opts)).Some?
  {
    var o := WithDefaults(opts);
    var atts := SortAtts(net.attachments);
    if RenderAtts(net, atts, o).Some? { AclsBind(net, RenderAtts(net, atts, o).value, atts, o); }
  }

  lemma AclsBind(net: Network, plan: Plan, atts: seq<NetAttachment>, opts: Options)
    requires net.name != "" && PortsResolve(atts, opts) && plan != map[]
    ensures BindAcls(net, plan, atts, opts).Some? && BindAcls(net, plan, atts, opts).value != map[]
  {
    forall n | n in plan ensures RenderAcls(net, net.accessLists, SortedKeys(PortsOn(atts, n, opts)), opts).Some? {
      AclListsRender(net, net.accessLists, SortedKeys(PortsOn(atts, n, opts)), opts);
    }
    if net.accessLists != [] {
      var n :| n in plan;
      assert n in BindAcls(net, plan, atts, opts).value;
    }
  }

  // ---- the checks of a validated service -----------------------------------------------------

  lemma TranslatedAcl(x: Input, net: Network, env: Env)
    requires ToNetwork(x) == Some(net) && x.acl.Some? && AclOk(x.acl.value, env)
    ensures net.accessLists == [AccessListFor(x.acl.value, x.serviceId)]
    ensures RulesApart(net.accessLists[0])
  {
    var al := net.accessLists[0];
    forall r, q | r in al.rules && q in al.rules && r.name == q.name ensures r == q {
      var i :| 0 <= i < |al.rules| && al.rules[i] == r;
      var j :| 0 <= j < |al.rules| && al.rules[j] == q;
      assert r.name == x.acl.value.rules[i].name && q.name == x.acl.value.rules[j].name;
      assert i == j;
    }
  }

  /** A validated service makes its own CONFIG_DB checks true, unless a rule called
      default stands beside a default action. */
  lemma ValidatedChecksHold(x: Input, dup: bool, env: Env, opts: Options, n: Node, s: State, c: Check)
    requires Accepts(x, dup, env) && !Srv6(x) && SameSite(env, opts) && ToNetwork(x).Some?
    requires ForNetwork(ToNetwork(x).value, opts).Some? && n in ForNetwork(ToNetwork(x).value, opts).value
    requires TunnelRow(WithDefaults(opts).vtep) in s.rows && c in ForNetwork(ToNetwork(x).value, opts).value[n].checks
    requires x.acl.Some? ==> !Shadowed(AccessListFor(x.acl.value, x.serviceId))
    ensures Holds(DoAll(s, ForNetwork(ToNetwork(x).value, opts).value[n].ops), c)
  {
    var net := ToNetwork(x).value;
    TranslatedIsApart(x, net, env);
    OpsEstablishChecks(net, opts, n, s, c);
  }

  lemma TranslatedIsApart(x: Input, net: Network, env: Env)
    requires x.serviceId != "" && ToNetwork(x) == Some(net) && (x.kind == "mac-vrf" ==> x.endpoints != [] && OneVlan(x.endpoints))
    requires x.acl.Some? ==> AclOk(x.acl.value, env) && !Shadowed(AccessListFor(x.acl.value, x.serviceId))
    ensures OneRouter(net) && AclsApart(net)
  {
    TranslatedRouters(x, net);
    forall a, b | a in RouterMap(net.routers) && b in RouterMap(net.routers) ensures a == b {
      assert a in RouterMap(net.routers).Keys && b in RouterMap(net.routers).Keys;
    }
    if x.acl.Some? { TranslatedAcl(x, net, env); } else { assert net.accessLists == []; }
  }
}
