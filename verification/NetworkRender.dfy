/** ForNetwork: intent to per-node rows, port memberships, checks and rollback. */
module NetworkRender {
  import opened Text
  import opened SiteNames
  import opened NetworkModel
  import opened L3Vlans

  // ---- device names ------------------------------------------------------------------

  predicate Usable(c: char) {
    'a' <= c <= 'z' || 'A' <= c <= 'Z' || '0' <= c <= '9' || c == '-' || c == '_'
  }

  function KeepUsable(s: string): (r: string)
    ensures r == "" <==> forall i :: 0 <= i < |s| ==> !Usable(s[i])
  {
    if s == [] then []
    else
      assert forall i :: 0 < i < |s| ==> s[i] == s[1..][i - 1];
      (if Usable(s[0]) then [s[0]] else []) + KeepUsable(s[1..])
  }

  function Lower(s: string): (r: string)
    ensures |r| == |s|
  {
    seq(|s|, i requires 0 <= i < |s| => LowerChar(s[i]))
  }

  function UpperChar(c: char): char {
    if 'a' <= c <= 'z' then ((c as int) - ('a' as int) + ('A' as int)) as char else c
  }

  function Upper(s: string): (r: string)
    ensures |r| == |s|
  {
    seq(|s|, i requires 0 <= i < |s| => UpperChar(s[i]))
  }

  /** strings.ReplaceAll of every v by V. */
  function BigV(s: string): (r: string)
    ensures |r| == |s|
  {
    seq(|s|, i requires 0 <= i < |s| => if s[i] == 'v' then 'V' else s[i])
  }

  /** DeviceVRFName: a leading vrf- dropped, the YANG alphabet kept, ten characters. */
  function DeviceVrfName(intent: string): Option<string> {
    if intent == "" then None
    else
      var rest := if |intent| > 4 && Lower(intent[..4]) == "vrf-" then intent[4..] else intent;
      var kept := KeepUsable(rest);
      if kept == "" then None else Some("Vrf-" + if |kept| > 10 then kept[..10] else kept)
  }

  function DeviceAclTable(service: string, stage: string): Option<string> {
    if service == "" then None
    else
      var kept := KeepUsable("acl-" + service + "-" + stage);
      Some(if |kept| > 64 then kept[..64] else kept)
  }

  // ---- the routed context ---------------------------------------------------------------

  datatype L3 = L3(vrf: string, vni: int, vlan: int)

  function L3Of(r: Router): Option<L3> {
    if r.l3vni == 0 then None
    else match (DeviceVrfName(r.name), L3VlanForVni(r.l3vni))
      case (Some(vrf), Some(vlan)) => Some(L3(vrf, r.l3vni, vlan))
      case _ => None
  }

  /** afisFor: every declared prefix has to parse. */
  predicate PrefixesParse(ps: seq<string>, opts: Options) {
    forall p :: p in ps && p != "" ==> opts.parses(p)
  }

  // ---- writes ----------------------------------------------------------------------------

  /** The node's own loopback address, as the baseline op finds it. */
  const Loopback := "<Loopback0>"

  function VlanName(vid: int): string {
    "Vlan" + Itoa(vid)
  }

  function BaselineOps(opts: Options): seq<Write> {
    if opts.nodeKind == "sonic-vm"
    then [HSet(TunnelRow(opts.vtep), "src_ip", Loopback), HSet(NvoRow, "source_vtep", opts.vtep)] else []
  }

  function VlanWrite(vid: int): Write {
    HSet(VlanRow(vid), "vlanid", Itoa(vid))
  }

  function MapWrites(vtep: string, vni: int, vid: int): seq<Write> {
    [HSet(MapRow(vtep, vni, vid), "vni", Itoa(vni)), HSet(MapRow(vtep, vni, vid), "vlan", VlanName(vid))]
  }

  function VrfWrite(c: L3): Write {
    SetRow(VrfRow(c.vrf), map["vni" := Itoa(c.vni)])
  }

  /** The port leaves the default VLAN and joins the service's. */
  function AccessPort(port: string, vid: int): seq<Write> {
    [Leave(port, 1), Join(port, vid)]
  }

  // ---- the constructs -----------------------------------------------------------------------

  function RenderL3(r: Router, att: NetAttachment, opts: Options): Option<NodePlan> {
    match (L3Of(r), Port(opts.ports, att.attachment))
    case (Some(c), Some(port)) =>
      if !PrefixesParse(r.prefixes, opts) then None
      else Some(NodePlan(
        BaselineOps(opts) + [VrfWrite(c), VlanWrite(c.vlan)] + AccessPort(port, c.vlan) + MapWrites(opts.vtep, c.vni, c.vlan),
        [RowField(VrfRow(c.vrf), "vni", Itoa(c.vni)), RowExists(MapRow(opts.vtep, c.vni, c.vlan))],
        [DelRow(MapRow(opts.vtep, c.vni, c.vlan)), DelRow(VlanRow(c.vlan)), Leave(port, c.vlan), DelRow(VrfRow(c.vrf))]))
    case _ => None
  }

  function L2Checks(bd: BridgeDomain, opts: Options): seq<Check> {
    [RowExists(TunnelRow(opts.vtep)), RowField(VlanRow(bd.vlan), "vlanid", Itoa(bd.vlan)),
     RowExists(MapRow(opts.vtep, bd.l2vni, bd.vlan))]
  }

  function L2Rollback(bd: BridgeDomain, port: string, opts: Options): seq<Write> {
    [DelRow(MapRow(opts.vtep, bd.l2vni, bd.vlan)), DelRow(VlanRow(bd.vlan)), Leave(port, bd.vlan)]
  }

  function RenderL2(bd: BridgeDomain, att: NetAttachment, opts: Options): Option<NodePlan> {
    if bd.l2vni == 0 then None
    else match Port(opts.ports, att.attachment)
      case None => None
      case Some(port) => Some(NodePlan(
        BaselineOps(opts) + [VlanWrite(bd.vlan)] + MapWrites(opts.vtep, bd.l2vni, bd.vlan) + AccessPort(port, bd.vlan)
          + [DropStaleMaps(opts.vtep, bd.vlan, bd.l2vni)],
        L2Checks(bd, opts),
        L2Rollback(bd, port, opts)))
  }

  function RenderIrb(bd: BridgeDomain, irb: Irb, r: Router, att: NetAttachment, opts: Options): Option<NodePlan> {
    if bd.l2vni == 0 then None
    else match (L3Of(r), Port(opts.ports, att.attachment))
      case (Some(c), Some(port)) =>
        if !PrefixesParse([irb.gatewayV4, irb.gatewayV6], opts) then None
        else Some(NodePlan(
          BaselineOps(opts) + [VrfWrite(c), VlanWrite(bd.vlan)] + MapWrites(opts.vtep, bd.l2vni, bd.vlan) + [VlanWrite(c.vlan)]
            + MapWrites(opts.vtep, c.vni, c.vlan) + AccessPort(port, bd.vlan) + [DropStaleMaps(opts.vtep, bd.vlan, bd.l2vni)],
          L2Checks(bd, opts) + [RowField(VrfRow(c.vrf), "vni", Itoa(c.vni)), RowExists(MapRow(opts.vtep, c.vni, c.vlan))],
          L2Rollback(bd, port, opts) + [DelRow(MapRow(opts.vtep, c.vni, c.vlan)), DelRow(VlanRow(c.vlan)), DelRow(VrfRow(c.vrf))]))
      case _ => None
  }

  function RenderVlan(v: LocalVlan, att: NetAttachment, opts: Options): Option<NodePlan> {
    match Port(opts.ports, att.attachment)
    case None => None
    case Some(port) => Some(NodePlan(
      [VlanWrite(v.vlan)] + AccessPort(port, v.vlan),
      [RowField(VlanRow(v.vlan), "vlanid", Itoa(v.vlan))],
      [DelRow(VlanRow(v.vlan)), Leave(port, v.vlan)]))
  }

  // ---- access lists ----------------------------------------------------------------------------

  function ActionToPacket(a: string): string {
    if Lower(a) in ["permit", "allow", "forward"] then "FORWARD" else "DROP"
  }

  function ProtoToNumber(p: string): string {
    var l := Lower(p);
    if l == "tcp" then "6" else if l == "udp" then "17" else if l == "icmp" then "1" else if l == "igmp" then "2"
    else if l == "rsvp" then "46" else if l == "gre" then "47" else if l == "ah" then "51" else if l == "pim" then "103"
    else if l == "l2tp" then "115" else if l == "any" || l == "" then "" else p
  }

  /** A field written when its value is declared. */
  function Declared(field: string, value: string): seq<(string, string)> {
    if value != "" then [(field, value)] else []
  }

  function PortField(single: string, value: string): seq<(string, string)> {
    if value == "" then [] else if '-' in value then [(single + "_RANGE", value)] else [(single, value)]
  }

  predicate IsV6(al: AccessList) {
    Lower(al.family) == "l3v6"
  }

  /** The match fields of a rule, as the op writes them. */
  function MatchFields(al: AccessList, r: AclRule): seq<(string, string)> {
    Declared("IP_PROTOCOL", ProtoToNumber(r.protocol))
    + (if IsV6(al) then Declared("SRC_IPV6", r.sourcePrefix) + Declared("DST_IPV6", r.destinationPrefix)
       else Declared("SRC_IP", r.sourcePrefix) + Declared("DST_IP", r.destinationPrefix))
    + PortField("L4_SRC_PORT", r.sourcePort) + PortField("L4_DST_PORT", r.destinationPort)
  }

  function RuleFields(al: AccessList, r: AclRule): seq<(string, string)> {
    [("PRIORITY", Itoa(r.priority)), ("PACKET_ACTION", ActionToPacket(r.action))]
    + MatchFields(al, r) + Declared("RULE_DESCRIPTION", r.description)
  }

  function CheckedFields(al: AccessList, r: AclRule): seq<(string, string)> {
    [("PRIORITY", Itoa(r.priority)), ("PACKET_ACTION", ActionToPacket(r.action))] + MatchFields(al, r)
  }

  function DefaultFields(al: AccessList): seq<(string, string)> {
    [("PRIORITY", "1"), ("PACKET_ACTION", ActionToPacket(al.defaultAction))]
  }

  function HSets(key: RowKey, fields: seq<(string, string)>): seq<Write> {
    seq(|fields|, i requires 0 <= i < |fields| => HSet(key, fields[i].0, fields[i].1))
  }

  function FieldChecks(key: RowKey, fields: seq<(string, string)>): seq<Check> {
    [RowExists(key)] + seq(|fields|, i requires 0 <= i < |fields| => RowField(key, fields[i].0, fields[i].1))
  }

  function TableFields(al: AccessList, ports: seq<string>, net: Network): seq<(string, string)> {
    [("stage", Upper(al.stage)), ("type", Upper(al.family)), ("ports@", JoinComma(ports)),
     ("policy_desc", net.namespace + "/" + net.name)]
  }

  function TableChecked(al: AccessList, ports: seq<string>): seq<(string, string)> {
    [("stage", Upper(al.stage)), ("type", Upper(BigV(al.family))), ("ports@", JoinComma(ports))]
  }

  function JoinComma(parts: seq<string>): string {
    if parts == [] then "" else if |parts| == 1 then parts[0] else parts[0] + "," + JoinComma(parts[1..])
  }

  function RulePlans(al: AccessList, table: string, rules: seq<AclRule>): NodePlan {
    if rules == [] then EmptyPlan
    else
      var key := AclRuleRow(table, rules[0].name);
      Append(NodePlan(HSets(key, RuleFields(al, rules[0])), FieldChecks(key, CheckedFields(al, rules[0])), [DelRow(key)]),
             RulePlans(al, table, rules[1..]))
  }

  function DefaultPlan(al: AccessList, table: string): NodePlan {
    if al.defaultAction == "" then EmptyPlan
    else
      var key := AclRuleRow(table, "default");
      NodePlan(HSets(key, DefaultFields(al)), FieldChecks(key, DefaultFields(al)), [DelRow(key)])
  }

  /** The table row, a row per rule, and the default rule. */
  function RenderAcl(al: AccessList, ports: seq<string>, net: Network): Option<NodePlan> {
    if ports == [] then Some(EmptyPlan)
    else match DeviceAclTable(net.name, al.stage)
      case None => None
      case Some(table) =>
        var key := AclTableRow(table);
        var rules := Append(RulePlans(al, table, al.rules), DefaultPlan(al, table));
        Some(NodePlan(HSets(key, TableFields(al, ports, net)) + rules.ops,
                      rules.checks + FieldChecks(key, TableChecked(al, ports)),
                      rules.rollback + [DelRow(key)]))
  }

  // ---- the network ------------------------------------------------------------------------------

  function RouterMap(rs: seq<Router>): (m: map<string, Router>) {
    if rs == [] then map[] else RouterMap(rs[..|rs| - 1])[rs[|rs| - 1].name := rs[|rs| - 1]]
  }

  function DomainMap(bds: seq<BridgeDomain>): (m: map<int, BridgeDomain>)
    ensures forall v :: v in m ==> v != 0 && m[v].vlan == v && m[v] in bds
  {
    if bds == [] then map[]
    else
      var bd := bds[|bds| - 1];
      var m := DomainMap(bds[..|bds| - 1]);
      if bd.vlan == 0 then m else m[bd.vlan := bd]
  }

  function VlanMap(vs: seq<LocalVlan>): (m: map<int, LocalVlan>)
    ensures forall v :: v in m ==> v != 0 && m[v].vlan == v && m[v] in vs
  {
    if vs == [] then map[]
    else
      var m := VlanMap(vs[..|vs| - 1]);
      if vs[|vs| - 1].vlan == 0 then m else m[vs[|vs| - 1].vlan := vs[|vs| - 1]]
  }

  /** Every routed VNI has a VLAN, and no two routers share it. */
  predicate L3VlansApart(routers: map<string, Router>) {
    && (forall n :: n in routers && routers[n].l3vni != 0 ==> L3VlanForVni(routers[n].l3vni).Some?)
    && (forall a, b :: a in routers && b in routers && a != b && routers[a].l3vni != 0 && routers[b].l3vni != 0 ==>
          L3VlanForVni(routers[a].l3vni) != L3VlanForVni(routers[b].l3vni))
  }

  predicate Unreserved(net: Network) {
    && (forall bd :: bd in net.bridgeDomains ==> bd.vlan <= Base)
    && (forall v :: v in net.vlans ==> v.vlan <= Base)
  }

  /** What ForNetwork refuses before it looks at an attachment. */
  predicate Admissible(net: Network, opts: Options) {
    && opts.ports != map[]
    && opts.nodeKind in ["", "sonic-vs", "sonic-vm"]
    && (forall r :: r in net.routers ==> r.name != "")
    && L3VlansApart(RouterMap(net.routers))
    && Unreserved(net)
  }

  predicate Before(a: NetAttachment, b: NetAttachment) {
    if a.node != b.node then Le(a.node, b.node) else Le(a.attachment, b.attachment)
  }

  function Insert(a: NetAttachment, sorted: seq<NetAttachment>): seq<NetAttachment> {
    if sorted == [] || Before(a, sorted[0]) then [a] + sorted else [sorted[0]] + Insert(a, sorted[1..])
  }

  function SortAtts(atts: seq<NetAttachment>): (r: seq<NetAttachment>) {
    if atts == [] then [] else Insert(atts[0], SortAtts(atts[1..]))
  }

  /** What one attachment adds to its node. */
  function RenderOne(net: Network, att: NetAttachment, opts: Options): Option<NodePlan> {
    var routers, bds, vls := RouterMap(net.routers), DomainMap(net.bridgeDomains), VlanMap(net.vlans);
    if att.vrf != "" then
      (if att.vrf in routers then RenderL3(routers[att.vrf], att, opts) else None)
    else if att.vlan != 0 then
      (if att.vlan in bds then
         (match bds[att.vlan].irb
          case None => RenderL2(bds[att.vlan], att, opts)
          case Some(irb) => if irb.vrf in routers then RenderIrb(bds[att.vlan], irb, routers[irb.vrf], att, opts) else None)
       else if att.vlan in vls then RenderVlan(vls[att.vlan], att, opts)
       else None)
    else if net.accessLists != [] then Some(EmptyPlan)
    else None
  }

  function NodeOf(plan: Plan, n: Node): NodePlan {
    if n in plan then plan[n] else EmptyPlan
  }

  function RenderAtts(net: Network, atts: seq<NetAttachment>, opts: Options): Option<Plan>
    decreases |atts|
  {
    if atts == [] then Some(map[])
    else
      var att := atts[|atts| - 1];
      match (RenderAtts(net, atts[..|atts| - 1], opts), RenderOne(net, att, opts))
      case (Some(plan), Some(more)) => Some(plan[att.node := Append(NodeOf(plan, att.node), more)])
      case _ => None
  }

  /** The ports a network binds on a node. */
  function PortsOn(atts: seq<NetAttachment>, n: Node, opts: Options): set<string> {
    set att | att in atts && att.node == n && Port(opts.ports, att.attachment).Some? :: Port(opts.ports, att.attachment).value
  }

  function RenderAcls(net: Network, als: seq<AccessList>, ports: seq<string>, opts: Options): Option<NodePlan>
    decreases |als|
  {
    if als == [] then Some(EmptyPlan)
    else match (RenderAcls(net, als[..|als| - 1], ports, opts), RenderAcl(als[|als| - 1], ports, net))
      case (Some(np), Some(more)) => Some(Append(np, more))
      case _ => None
  }

  predicate PortsResolve(atts: seq<NetAttachment>, opts: Options) {
    forall att :: att in atts ==> Port(opts.ports, att.attachment).Some?
  }

  /** What the lists add on a node. */
  function AclsFor(net: Network, atts: seq<NetAttachment>, n: Node, opts: Options): Option<NodePlan> {
    RenderAcls(net, net.accessLists, SortedKeys(PortsOn(atts, n, opts)), opts)
  }

  /** The lists go to every node of the plan, each bound to that node's ports. */
  function BindAcls(net: Network, plan: Plan, atts: seq<NetAttachment>, opts: Options): Option<Plan> {
    if net.accessLists == [] then Some(plan)
    else if !PortsResolve(atts, opts) then None
    else if exists n :: n in plan && AclsFor(net, atts, n, opts).None? then None
    else Some(map n | n in plan :: Append(plan[n], AclsFor(net, atts, n, opts).value))
  }

  function WithDefaults(opts: Options): Options {
    if opts.vtep == "" then opts.(vtep := "vtep1") else opts
  }

  /** The plan a Network renders to; None stands for every refusal. */
  function ForNetwork(net: Network, opts0: Options): Option<Plan> {
    var opts := WithDefaults(opts0);
    if !Admissible(net, opts) then None
    else
      var atts := SortAtts(net.attachments);
      match RenderAtts(net, atts, opts)
      case None => None
      case Some(plan) =>
        match BindAcls(net, plan, atts, opts)
        case None => None
        case Some(bound) => if bound == map[] then None else Some(bound)
  }
}
