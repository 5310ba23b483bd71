/** The ops of a rendered Network make its own CONFIG_DB checks true. */
module NetworkChecks {
  import opened Text
  import opened SiteNames
  import opened NetworkModel
  import opened L3Vlans
  import opened NetworkRender

  /** All routers of the network are one. */
  ghost predicate OneRouter(net: Network) {
    forall a, b :: a in RouterMap(net.routers) && b in RouterMap(net.routers) ==> a == b
  }

  ghost predicate TableOf(net: Network, al: AccessList, table: string) {
    al in net.accessLists && DeviceAclTable(net.name, al.stage) == Some(table)
  }

  /** One list a table, distinct rule names, and no rule called default beside a
      default action. */
  ghost predicate AclsApart(net: Network) {
    && (forall a, b :: a in net.accessLists && b in net.accessLists && SameTable(net, a, b) ==> a == b)
    && (forall al :: al in net.accessLists ==> RulesApart(al) && !Shadowed(al))
  }

  ghost predicate SameTable(net: Network, a: AccessList, b: AccessList) {
    DeviceAclTable(net.name, a.stage) == DeviceAclTable(net.name, b.stage)
  }

  ghost predicate RulesApart(al: AccessList) {
    forall r, q :: r in al.rules && q in al.rules && r.name == q.name ==> r == q
  }

  /** A rule shares the row of the default action. */
  ghost predicate Shadowed(al: AccessList) {
    al.defaultAction != "" && exists r :: r in al.rules && r.name == "default"
  }

  // ---- what the fields of a row are ---------------------------------------------------

  /** The value a rule's row has under a field name. */
  function RuleValue(al: AccessList, r: AclRule, f: string): string {
    if f == "PRIORITY" then Itoa(r.priority)
    else if f == "PACKET_ACTION" then ActionToPacket(r.action)
    else if f == "IP_PROTOCOL" then ProtoToNumber(r.protocol)
    else if f == "SRC_IPV6" || f == "SRC_IP" then r.sourcePrefix
    else if f == "DST_IPV6" || f == "DST_IP" then r.destinationPrefix
    else if f == "L4_SRC_PORT" || f == "L4_SRC_PORT_RANGE" then r.sourcePort
    else if f == "L4_DST_PORT" || f == "L4_DST_PORT_RANGE" then r.destinationPort
    else r.description
  }

  lemma PortFieldValue(single: string, value: string, p: (string, string))
    requires p in PortField(single, value)
    ensures p.1 == value && (p.0 == single || p.0 == single + "_RANGE")
  {
  }

  lemma MatchFieldValue(al: AccessList, r: AclRule, p: (string, string))
    requires p in MatchFields(al, r)
    ensures p.1 == RuleValue(al, r, p.0) && p.0 != "PRIORITY" && p.0 != "PACKET_ACTION" && p.0 != "RULE_DESCRIPTION"
  {
    if p in PortField("L4_SRC_PORT", r.sourcePort) { PortFieldValue("L4_SRC_PORT", r.sourcePort, p); }
    if p in PortField("L4_DST_PORT", r.destinationPort) { PortFieldValue("L4_DST_PORT", r.destinationPort, p); }
    assert "L4_SRC_PORT" + "_RANGE" == "L4_SRC_PORT_RANGE" && "L4_DST_PORT" + "_RANGE" == "L4_DST_PORT_RANGE";
  }

  lemma RuleFieldValue(al: AccessList, r: AclRule, p: (string, string))
    requires p in RuleFields(al, r)
    ensures p.1 == RuleValue(al, r, p.0)
  {
    if p in MatchFields(al, r) { MatchFieldValue(al, r, p); }
  }

  function TableValue(al: AccessList, ports: seq<string>, net: Network, f: string): string {
    if f == "stage" then Upper(al.stage) else if f == "type" then Upper(al.family)
    else if f == "ports@" then JoinComma(ports) else net.namespace + "/" + net.name
  }

  /** The check reads the type with every v written V first; upper case hides it. */
  lemma UpperOfBigV(s: string)
    ensures Upper(BigV(s)) == Upper(s)
  {
    assert forall i :: 0 <= i < |s| ==> Upper(BigV(s))[i] == Upper(s)[i];
  }

  // ---- writes and checks of this network -----------------------------------------------

  ghost predicate RuleGives(al: AccessList, rule: string, f: string, x: string) {
    || (exists r :: r in al.rules && r.name == rule && x == RuleValue(al, r, f))
    || (rule == "default" && al.defaultAction != "" && (f, x) in DefaultFields(al))
  }

  ghost predicate RuleRowValue(net: Network, table: string, rule: string, f: string, x: string) {
    exists al :: TableOf(net, al, table) && RuleGives(al, rule, f, x)
  }

  ghost predicate TableRowValue(net: Network, ports: seq<string>, table: string, f: string, x: string) {
    exists al :: TableOf(net, al, table) && x == TableValue(al, ports, net, f)
  }

  ghost predicate RouterVni(net: Network, x: string) {
    exists n :: n in RouterMap(net.routers) && x == Itoa(RouterMap(net.routers)[n].l3vni)
  }

  /** The only value a field of a row is ever given, or looked for, on a node. */
  ghost predicate Proper(net: Network, ports: seq<string>, k: RowKey, f: string, x: string) {
    match k
    case VrfRow(_) => f == "vni" && RouterVni(net, x)
    case VlanRow(v) => f == "vlanid" && x == Itoa(v)
    case AclTableRow(t) => TableRowValue(net, ports, t, f, x)
    case AclRuleRow(t, rule) => RuleRowValue(net, t, rule, f, x)
    case _ => true
  }

  ghost predicate SaneWrite(net: Network, ports: seq<string>, w: Write) {
    match w
    case HSet(k, f, x) => !k.VrfRow? && Proper(net, ports, k, f, x)
    case SetRow(k, fields) => k.VrfRow? && exists x :: RouterVni(net, x) && fields == map["vni" := x]
    case DelRow(_) => false
    case DropStaleMaps(_, v, keep) => v in DomainMap(net.bridgeDomains) && keep == DomainMap(net.bridgeDomains)[v].l2vni
    case _ => true
  }

  ghost predicate SaneCheck(net: Network, ports: seq<string>, c: Check) {
    && (c.RowField? ==> !c.key.MapRow? && !c.key.TunnelRow? && !c.key.NvoRow? && Proper(net, ports, c.key, c.field, c.want))
    && (c.key.MapRow? ==>
          (c.key.vid > Base
           || (c.key.vid in DomainMap(net.bridgeDomains) && DomainMap(net.bridgeDomains)[c.key.vid].l2vni == c.key.vni)))
  }

  lemma ProperIsFunctional(net: Network, ports: seq<string>, k: RowKey, f: string, x: string, y: string)
    requires OneRouter(net) && AclsApart(net) && !k.MapRow? && !k.TunnelRow? && !k.NvoRow?
    requires Proper(net, ports, k, f, x) && Proper(net, ports, k, f, y)
    ensures x == y
  {
    match k
    case AclTableRow(t) =>
      var a :| TableOf(net, a, t) && x == TableValue(a, ports, net, f);
      var b :| TableOf(net, b, t) && y == TableValue(b, ports, net, f);
      assert SameTable(net, a, b);
    case AclRuleRow(t, rule) => RuleRowFunctional(net, t, rule, f, x, y);
    case _ =>
  }

  lemma RuleRowFunctional(net: Network, t: string, rule: string, f: string, x: string, y: string)
    requires AclsApart(net) && RuleRowValue(net, t, rule, f, x) && RuleRowValue(net, t, rule, f, y)
    ensures x == y
  {
    var a :| TableOf(net, a, t) && RuleGives(a, rule, f, x);
    var b :| TableOf(net, b, t) && RuleGives(b, rule, f, y);
    assert SameTable(net, a, b);
    RuleFunctional(a, rule, f, x, y);
  }

  lemma RuleFunctional(al: AccessList, rule: string, f: string, x: string, y: string)
    requires RulesApart(al) && !Shadowed(al) && RuleGives(al, rule, f, x) && RuleGives(al, rule, f, y)
    ensures x == y
  {
  }

  lemma SaneSpares(net: Network, opts: Options, ports: seq<string>, w: Write, c: Check)
    requires OneRouter(net) && AclsApart(net) && Unreserved(net)
    requires SaneWrite(net, ports, w) && SaneCheck(net, ports, c)
    ensures Spares(w, c)
  {
    match w
    case HSet(k, f, x) =>
      if c.RowField? && k == c.key && f == c.field { ProperIsFunctional(net, ports, k, f, x, c.want); }
    case SetRow(k, fields) =>
      if c.RowField? && k == c.key {
        var x :| RouterVni(net, x) && fields == map["vni" := x];
        ProperIsFunctional(net, ports, k, "vni", x, c.want);
      }
    case DropStaleMaps(_, v, keep) =>
      assert DomainMap(net.bridgeDomains)[v] in net.bridgeDomains;
    case _ =>
  }

  // ---- pieces ------------------------------------------------------------------------------

  ghost predicate Backed(opts: Options, np: NodePlan, c: Check) {
    c == RowExists(TunnelRow(opts.vtep)) || exists w :: w in np.ops && Establishes(w, c)
  }

  /** A part of a node plan whose writes and checks are this network's, and whose
      checks it makes true itself. */
  ghost predicate PieceOk(net: Network, opts: Options, ports: seq<string>, np: NodePlan) {
    && (forall w :: w in np.ops ==> SaneWrite(net, ports, w))
    && (forall c :: c in np.checks ==> SaneCheck(net, ports, c) && Backed(opts, np, c))
  }

  lemma PieceAppend(net: Network, opts: Options, ports: seq<string>, a: NodePlan, b: NodePlan)
    requires PieceOk(net, opts, ports, a) && PieceOk(net, opts, ports, b)
    ensures PieceOk(net, opts, ports, Append(a, b))
  {
    var ab := Append(a, b);
    forall c | c in ab.checks ensures SaneCheck(net, ports, c) && Backed(opts, ab, c) {
      if c in a.checks {
        assert Backed(opts, a, c);
        if w :| w in a.ops && Establishes(w, c) { assert w in ab.ops; }
      } else {
        assert Backed(opts, b, c);
        if w :| w in b.ops && Establishes(w, c) { assert w in ab.ops; }
      }
    }
  }

  /** What a node plan of sane pieces does, on any state with the tunnel row. */
  lemma PieceChecksHold(net: Network, opts: Options, ports: seq<string>, np: NodePlan, s: State, c: Check)
    requires OneRouter(net) && AclsApart(net) && Unreserved(net)
    requires PieceOk(net, opts, ports, np) && TunnelRow(opts.vtep) in s.rows && c in np.checks
    ensures Holds(DoAll(s, np.ops), c)
  {
    forall w | w in np.ops ensures Spares(w, c) { SaneSpares(net, opts, ports, w, c); }
    assert Backed(opts, np, c);
    if w :| w in np.ops && Establishes(w, c) {
      EstablishedIsTrue(s, np.ops, c, w);
    } else {
      SparedStaysTrue(s, np.ops, c);
    }
  }

  lemma BaselineSane(net: Network, opts: Options, ports: seq<string>)
    ensures forall w :: w in BaselineOps(opts) ==> SaneWrite(net, ports, w)
  {
  }

  ghost predicate AllSane(net: Network, ports: seq<string>, ws: seq<Write>) {
    forall w :: w in ws ==> SaneWrite(net, ports, w)
  }

  lemma SaneConcat(net: Network, ports: seq<string>, a: seq<Write>, b: seq<Write>)
    requires AllSane(net, ports, a) && AllSane(net, ports, b)
    ensures AllSane(net, ports, a + b)
  {
  }

  /** The routed half: the VRF row, the derived VLAN's row and its map. */
  lemma RoutedSane(net: Network, opts: Options, ports: seq<string>, n: string)
    requires n in RouterMap(net.routers) && L3Of(RouterMap(net.routers)[n]).Some?
    ensures var c := L3Of(RouterMap(net.routers)[n]).value;
      && SaneWrite(net, ports, VrfWrite(c)) && AllSane(net, ports, [VlanWrite(c.vlan)])
      && AllSane(net, ports, MapWrites(opts.vtep, c.vni, c.vlan))
      && SaneCheck(net, ports, RowField(VrfRow(c.vrf), "vni", Itoa(c.vni)))
      && SaneCheck(net, ports, RowExists(MapRow(opts.vtep, c.vni, c.vlan)))
      && Establishes(VrfWrite(c), RowField(VrfRow(c.vrf), "vni", Itoa(c.vni)))
      && Establishes(MapWrites(opts.vtep, c.vni, c.vlan)[0], RowExists(MapRow(opts.vtep, c.vni, c.vlan)))
  {
    var r := RouterMap(net.routers)[n];
    InBand(r.l3vni);
    assert RouterVni(net, Itoa(r.l3vni));
  }

  /** The bridged half of a declared domain. */
  lemma BridgedSane(net: Network, opts: Options, ports: seq<string>, v: int, port: string)
    requires v in DomainMap(net.bridgeDomains)
    ensures var bd := DomainMap(net.bridgeDomains)[v];
      && AllSane(net, ports, [VlanWrite(bd.vlan)]) && AllSane(net, ports, MapWrites(opts.vtep, bd.l2vni, bd.vlan))
      && AllSane(net, ports, AccessPort(port, bd.vlan)) && AllSane(net, ports, [DropStaleMaps(opts.vtep, bd.vlan, bd.l2vni)])
      && (forall c :: c in L2Checks(bd, opts) ==> SaneCheck(net, ports, c))
      && Establishes(VlanWrite(bd.vlan), RowField(VlanRow(bd.vlan), "vlanid", Itoa(bd.vlan)))
      && Establishes(MapWrites(opts.vtep, bd.l2vni, bd.vlan)[0], RowExists(MapRow(opts.vtep, bd.l2vni, bd.vlan)))
  {
  }

  lemma L3Piece(net: Network, opts: Options, ports: seq<string>, n: string, att: NetAttachment)
    requires n in RouterMap(net.routers) && RenderL3(RouterMap(net.routers)[n], att, opts).Some?
    ensures PieceOk(net, opts, ports, RenderL3(RouterMap(net.routers)[n], att, opts).value)
  {
    var r := RouterMap(net.routers)[n];
    var np := RenderL3(r, att, opts).value;
    var c, port := L3Of(r).value, Port(opts.ports, att.attachment).value;
    BaselineSane(net, opts, ports);
    RoutedSane(net, opts, ports, n);
    var a := BaselineOps(opts) + [VrfWrite(c), VlanWrite(c.vlan)];
    assert AllSane(net, ports, [VrfWrite(c), VlanWrite(c.vlan)]) by { assert VlanWrite(c.vlan) in [VlanWrite(c.vlan)]; }
    SaneConcat(net, ports, BaselineOps(opts), [VrfWrite(c), VlanWrite(c.vlan)]);
    SaneConcat(net, ports, a, AccessPort(port, c.vlan));
    SaneConcat(net, ports, a + AccessPort(port, c.vlan), MapWrites(opts.vtep, c.vni, c.vlan));
    assert VrfWrite(c) in np.ops && MapWrites(opts.vtep, c.vni, c.vlan)[0] in np.ops;
  }

  lemma L2Piece(net: Network, opts: Options, ports: seq<string>, v: int, att: NetAttachment)
    requires v in DomainMap(net.bridgeDomains) && RenderL2(DomainMap(net.bridgeDomains)[v], att, opts).Some?
    ensures PieceOk(net, opts, ports, RenderL2(DomainMap(net.bridgeDomains)[v], att, opts).value)
  {
    var bd := DomainMap(net.bridgeDomains)[v];
    var np := RenderL2(bd, att, opts).value;
    BaselineSane(net, opts, ports);
    assert VlanWrite(bd.vlan) in np.ops && MapWrites(opts.vtep, bd.l2vni, bd.vlan)[0] in np.ops;
  }

  lemma IrbPiece(net: Network, opts: Options, ports: seq<string>, v: int, irb: Irb, n: string, att: NetAttachment)
    requires v in DomainMap(net.bridgeDomains) && n in RouterMap(net.routers)
    requires RenderIrb(DomainMap(net.bridgeDomains)[v], irb, RouterMap(net.routers)[n], att, opts).Some?
    ensures PieceOk(net, opts, ports, RenderIrb(DomainMap(net.bridgeDomains)[v], irb, RouterMap(net.routers)[n], att, opts).value)
  {
    var bd, r := DomainMap(net.bridgeDomains)[v], RouterMap(net.routers)[n];
    var np := RenderIrb(bd, irb, r, att, opts).value;
    var c, port := L3Of(r).value, Port(opts.ports, att.attachment).value;
    RoutedSane(net, opts, ports, n);
    BridgedSane(net, opts, ports, v, port);
    IrbWritesSane(net, opts, ports, v, n, port);
    var o := MapWrites(opts.vtep, bd.l2vni, bd.vlan)[0];
    var p := MapWrites(opts.vtep, c.vni, c.vlan)[0];
    assert VrfWrite(c) in np.ops && VlanWrite(bd.vlan) in np.ops && o in np.ops && p in np.ops;
    forall check | check in np.checks ensures SaneCheck(net, ports, check) && Backed(opts, np, check) {
      assert check in L2Checks(bd, opts) || check in [RowField(VrfRow(c.vrf), "vni", Itoa(c.vni)), RowExists(MapRow(opts.vtep, c.vni, c.vlan))];
    }
  }

  lemma IrbWritesSane(net: Network, opts: Options, ports: seq<string>, v: int, n: string, port: string)
    requires v in DomainMap(net.bridgeDomains) && n in RouterMap(net.routers) && L3Of(RouterMap(net.routers)[n]).Some?
    ensures var bd, c := DomainMap(net.bridgeDomains)[v], L3Of(RouterMap(net.routers)[n]).value;
      AllSane(net, ports, BaselineOps(opts) + [VrfWrite(c), VlanWrite(bd.vlan)] + MapWrites(opts.vtep, bd.l2vni, bd.vlan)
        + [VlanWrite(c.vlan)] + MapWrites(opts.vtep, c.vni, c.vlan) + AccessPort(port, bd.vlan)
        + [DropStaleMaps(opts.vtep, bd.vlan, bd.l2vni)])
  {
    var bd, c := DomainMap(net.bridgeDomains)[v], L3Of(RouterMap(net.routers)[n]).value;
    BaselineSane(net, opts, ports);
    RoutedSane(net, opts, ports, n);
    BridgedSane(net, opts, ports, v, port);
    assert AllSane(net, ports, [VrfWrite(c), VlanWrite(bd.vlan)]) by { assert VlanWrite(bd.vlan) in [VlanWrite(bd.vlan)]; }
    var o1 := BaselineOps(opts) + [VrfWrite(c), VlanWrite(bd.vlan)];
    SaneConcat(net, ports, BaselineOps(opts), [VrfWrite(c), VlanWrite(bd.vlan)]);
    var o2 := o1 + MapWrites(opts.vtep, bd.l2vni, bd.vlan);
    SaneConcat(net, ports, o1, MapWrites(opts.vtep, bd.l2vni, bd.vlan));
    var o3 := o2 + [VlanWrite(c.vlan)];
    SaneConcat(net, ports, o2, [VlanWrite(c.vlan)]);
    var o4 := o3 + MapWrites(opts.vtep, c.vni, c.vlan);
    SaneConcat(net, ports, o3, MapWrites(opts.vtep, c.vni, c.vlan));
    var o5 := o4 + AccessPort(port, bd.vlan);
    SaneConcat(net, ports, o4, AccessPort(port, bd.vlan));
    SaneConcat(net, ports, o5, [DropStaleMaps(opts.vtep, bd.vlan, bd.l2vni)]);
  }

  lemma VlanPiece(net: Network, opts: Options, ports: seq<string>, v: LocalVlan, att: NetAttachment)
    requires RenderVlan(v, att, opts).Some?
    ensures PieceOk(net, opts, ports, RenderVlan(v, att, opts).value)
  {
    assert VlanWrite(v.vlan) in RenderVlan(v, att, opts).value.ops;
  }

  lemma OnePiece(net: Network, opts: Options, ports: seq<string>, att: NetAttachment)
    requires RenderOne(net, att, opts).Some?
    ensures PieceOk(net, opts, ports, RenderOne(net, att, opts).value)
  {
    var bds := DomainMap(net.bridgeDomains);
    if att.vrf != "" {
      L3Piece(net, opts, ports, att.vrf, att);
    } else if att.vlan != 0 {
      if att.vlan in bds {
        match bds[att.vlan].irb
        case None => L2Piece(net, opts, ports, att.vlan, att);
        case Some(irb) => IrbPiece(net, opts, ports, att.vlan, irb, irb.vrf, att);
      } else {
        VlanPiece(net, opts, ports, VlanMap(net.vlans)[att.vlan], att);
      }
    }
  }

  lemma {:induction false} AttsPieces(net: Network, opts: Options, ports: seq<string>, atts: seq<NetAttachment>, n: Node)
    requires RenderAtts(net, atts, opts).Some? && n in RenderAtts(net, atts, opts).value
    ensures PieceOk(net, opts, ports, RenderAtts(net, atts, opts).value[n])
    decreases |atts|
  {
    var att := atts[|atts| - 1];
    var before := RenderAtts(net, atts[..|atts| - 1], opts).value;
    if n in before { AttsPieces(net, opts, ports, atts[..|atts| - 1], n); }
    if n == att.node {
      OnePiece(net, opts, ports, att);
      PieceAppend(net, opts, ports, NodeOf(before, n), RenderOne(net, att, opts).value);
    }
  }

  // ---- access lists ----------------------------------------------------------------------------

  /** A row whose checked fields are among the written ones. */
  lemma RowPiece(net: Network, opts: Options, ports: seq<string>, key: RowKey, written: seq<(string, string)>,
                 checked: seq<(string, string)>, rollback: seq<Write>)
    requires key.AclTableRow? || key.AclRuleRow?
    requires written != [] && (forall p :: p in checked ==> p in written)
    requires forall p :: p in written ==> Proper(net, ports, key, p.0, p.1)
    ensures PieceOk(net, opts, ports, NodePlan(HSets(key, written), FieldChecks(key, checked), rollback))
  {
    var np := NodePlan(HSets(key, written), FieldChecks(key, checked), rollback);
    forall w | w in np.ops ensures SaneWrite(net, ports, w) {
      var i :| 0 <= i < |written| && w == HSet(key, written[i].0, written[i].1);
      assert written[i] in written;
    }
    forall c | c in np.checks ensures SaneCheck(net, ports, c) && Backed(opts, np, c) {
      if c == RowExists(key) {
        assert np.ops[0] in np.ops && Establishes(np.ops[0], c);
      } else {
        var i :| 0 <= i < |checked| && c == RowField(key, checked[i].0, checked[i].1);
        assert checked[i] in written;
        var j :| 0 <= j < |written| && written[j] == checked[i];
        assert np.ops[j] in np.ops && Establishes(np.ops[j], c);
      }
    }
  }

  lemma {:induction false} RulePieces(net: Network, opts: Options, ports: seq<string>, al: AccessList, table: string, rules: seq<AclRule>)
    requires TableOf(net, al, table) && forall r :: r in rules ==> r in al.rules
    ensures PieceOk(net, opts, ports, RulePlans(al, table, rules))
  {
    if rules != [] {
      var r := rules[0];
      var key := AclRuleRow(table, r.name);
      forall p | p in RuleFields(al, r) ensures Proper(net, ports, key, p.0, p.1) { RuleFieldValue(al, r, p); }
      RowPiece(net, opts, ports, key, RuleFields(al, r), CheckedFields(al, r), [DelRow(key)]);
      RulePieces(net, opts, ports, al, table, rules[1..]);
      PieceAppend(net, opts, ports, NodePlan(HSets(key, RuleFields(al, r)), FieldChecks(key, CheckedFields(al, r)), [DelRow(key)]),
                  RulePlans(al, table, rules[1..]));
    }
  }

  lemma DefaultPiece(net: Network, opts: Options, ports: seq<string>, al: AccessList, table: string)
    requires TableOf(net, al, table)
    ensures PieceOk(net, opts, ports, DefaultPlan(al, table))
  {
    if al.defaultAction != "" {
      var key := AclRuleRow(table, "default");
      RowPiece(net, opts, ports, key, DefaultFields(al), DefaultFields(al), [DelRow(key)]);
    }
  }

  lemma TablePiece(net: Network, opts: Options, ports: seq<string>, al: AccessList, table: string, rollback: seq<Write>)
    requires TableOf(net, al, table)
    ensures PieceOk(net, opts, ports,
      NodePlan(HSets(AclTableRow(table), TableFields(al, ports, net)), FieldChecks(AclTableRow(table), TableChecked(al, ports)), rollback))
  {
    UpperOfBigV(al.family);
    var written := TableFields(al, ports, net);
    forall p | p in written ensures Proper(net, ports, AclTableRow(table), p.0, p.1) {
      assert p.1 == TableValue(al, ports, net, p.0);
    }
    forall p | p in TableChecked(al, ports) ensures p in written {
      assert written[0] in written && written[1] in written && written[2] in written;
    }
    RowPiece(net, opts, ports, AclTableRow(table), written, TableChecked(al, ports), rollback);
  }

  lemma AclPiece(net: Network, opts: Options, ports: seq<string>, al: AccessList)
    requires al in net.accessLists && RenderAcl(al, ports, net).Some?
    ensures PieceOk(net, opts, ports, RenderAcl(al, ports, net).value)
  {
    if ports != [] {
      var table := DeviceAclTable(net.name, al.stage).value;
      var key := AclTableRow(table);
      var rules := Append(RulePlans(al, table, al.rules), DefaultPlan(al, table));
      RulePieces(net, opts, ports, al, table, al.rules);
      DefaultPiece(net, opts, ports, al, table);
      PieceAppend(net, opts, ports, RulePlans(al, table, al.rules), DefaultPlan(al, table));
      TablePiece(net, opts, ports, al, table, [DelRow(key)]);
      var t := NodePlan(HSets(key, TableFields(al, ports, net)), FieldChecks(key, TableChecked(al, ports)), [DelRow(key)]);
      PieceAppend(net, opts, ports, rules, t);
      PieceReorder(net, opts, ports, Append(rules, t), RenderAcl(al, ports, net).value);
    }
  }

  /** The order of a plan's writes and checks does not matter to a piece. */
  lemma PieceReorder(net: Network, opts: Options, ports: seq<string>, a: NodePlan, b: NodePlan)
    requires PieceOk(net, opts, ports, a)
    requires (forall w :: w in b.ops <==> w in a.ops) && (forall c :: c in b.checks <==> c in a.checks)
    ensures PieceOk(net, opts, ports, b)
  {
    forall c | c in b.checks ensures Backed(opts, b, c) {
      assert Backed(opts, a, c);
      if w :| w in a.ops && Establishes(w, c) { assert w in b.ops; }
    }
  }

  lemma {:induction false} AclPieces(net: Network, opts: Options, ports: seq<string>, als: seq<AccessList>)
    requires (forall al :: al in als ==> al in net.accessLists) && RenderAcls(net, als, ports, opts).Some?
    ensures PieceOk(net, opts, ports, RenderAcls(net, als, ports, opts).value)
    decreases |als|
  {
    if als != [] {
      AclPieces(net, opts, ports, als[..|als| - 1]);
      AclPiece(net, opts, ports, als[|als| - 1]);
      PieceAppend(net, opts, ports, RenderAcls(net, als[..|als| - 1], ports, opts).value, RenderAcl(als[|als| - 1], ports, net).value);
    }
  }

  /** Running a node's ops, on any configuration that holds the overlay baseline,
      makes every CONFIG_DB check of that node true: across all constructs and
      every rule of every list, under last writer wins. */
  lemma OpsEstablishChecks(net: Network, opts: Options, n: Node, s: State, c: Check)
    requires ForNetwork(net, opts).Some? && n in ForNetwork(net, opts).value
    requires OneRouter(net) && AclsApart(net)
    requires TunnelRow(WithDefaults(opts).vtep) in s.rows && c in ForNetwork(net, opts).value[n].checks
    ensures Holds(DoAll(s, ForNetwork(net, opts).value[n].ops), c)
  {
    var o := WithDefaults(opts);
    var atts := SortAtts(net.attachments);
    var ports := SortedKeys(PortsOn(atts, n, o));
    var plan := RenderAtts(net, atts, o).value;
    AttsPieces(net, o, ports, atts, n);
    if net.accessLists != [] {
      AclPieces(net, o, ports, net.accessLists);
      PieceAppend(net, o, ports, plan[n], RenderAcls(net, net.accessLists, ports, o).value);
    }
    PieceChecksHold(net, o, ports, ForNetwork(net, opts).value[n], s, c);
  }
}
