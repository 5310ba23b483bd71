/** Laws of every rendered Network: rollback covers the ops, attachment order is
    irrelevant, derived VLANs stay apart from everything declared. */
module NetworkLaws {
  import opened Text
  import opened SiteNames
  import opened NetworkModel
  import opened L3Vlans
  import opened NetworkRender

  // ---- rollback covers the ops ----------------------------------------------------

  /** The rollback takes back what these writes create. */
  ghost predicate TakenBack(ops: seq<Write>, rollback: seq<Write>) {
    && (forall w :: w in ops && (w.HSet? || w.SetRow?) && !Baseline(w.key) ==> DelRow(w.key) in rollback)
    && (forall w :: w in ops && w.Join? ==> Leave(w.port, w.vid) in rollback)
  }

  lemma BaselineBack(opts: Options, rollback: seq<Write>)
    ensures TakenBack(BaselineOps(opts), rollback)
  {
  }

  lemma RowsBack(opts: Options, vni: int, vid: int, port: string, rollback: seq<Write>)
    requires DelRow(VlanRow(vid)) in rollback
    ensures TakenBack([VlanWrite(vid)], rollback)
    ensures DelRow(MapRow(opts.vtep, vni, vid)) in rollback ==> TakenBack(MapWrites(opts.vtep, vni, vid), rollback)
    ensures Leave(port, vid) in rollback ==> TakenBack(AccessPort(port, vid), rollback)
    ensures TakenBack([DropStaleMaps(opts.vtep, vid, vni)], rollback)
  {
  }

  lemma VrfBack(c: L3, rollback: seq<Write>)
    requires DelRow(VrfRow(c.vrf)) in rollback
    ensures TakenBack([VrfWrite(c)], rollback)
  {
  }

  lemma BackConcat(a: seq<Write>, b: seq<Write>, rollback: seq<Write>)
    requires TakenBack(a, rollback) && TakenBack(b, rollback)
    ensures TakenBack(a + b, rollback)
  {
  }

  lemma L3Covered(r: Router, att: NetAttachment, opts: Options)
    requires RenderL3(r, att, opts).Some?
    ensures Covered(RenderL3(r, att, opts).value)
  {
    var c, port := L3Of(r).value, Port(opts.ports, att.attachment).value;
    var rb := [DelRow(MapRow(opts.vtep, c.vni, c.vlan)), DelRow(VlanRow(c.vlan)), Leave(port, c.vlan), DelRow(VrfRow(c.vrf))];
    assert rb[0] in rb && rb[1] in rb && rb[2] in rb && rb[3] in rb;
    BaselineBack(opts, rb);
    VrfBack(c, rb);
    RowsBack(opts, c.vni, c.vlan, port, rb);
    assert [VrfWrite(c), VlanWrite(c.vlan)] == [VrfWrite(c)] + [VlanWrite(c.vlan)];
    BackConcat([VrfWrite(c)], [VlanWrite(c.vlan)], rb);
    var a := BaselineOps(opts) + [VrfWrite(c), VlanWrite(c.vlan)];
    BackConcat(BaselineOps(opts), [VrfWrite(c), VlanWrite(c.vlan)], rb);
    BackConcat(a, AccessPort(port, c.vlan), rb);
    BackConcat(a + AccessPort(port, c.vlan), MapWrites(opts.vtep, c.vni, c.vlan), rb);
  }

  lemma L2Covered(bd: BridgeDomain, att: NetAttachment, opts: Options)
    requires RenderL2(bd, att, opts).Some?
    ensures Covered(RenderL2(bd, att, opts).value)
  {
    var port := Port(opts.ports, att.attachment).value;
    var rb := L2Rollback(bd, port, opts);
    assert rb[0] in rb && rb[1] in rb && rb[2] in rb;
    BaselineBack(opts, rb);
    RowsBack(opts, bd.l2vni, bd.vlan, port, rb);
    var o1 := BaselineOps(opts) + [VlanWrite(bd.vlan)];
    BackConcat(BaselineOps(opts), [VlanWrite(bd.vlan)], rb);
    var o2 := o1 + MapWrites(opts.vtep, bd.l2vni, bd.vlan);
    BackConcat(o1, MapWrites(opts.vtep, bd.l2vni, bd.vlan), rb);
    var o3 := o2 + AccessPort(port, bd.vlan);
    BackConcat(o2, AccessPort(port, bd.vlan), rb);
    BackConcat(o3, [DropStaleMaps(opts.vtep, bd.vlan, bd.l2vni)], rb);
  }

  lemma IrbCovered(bd: BridgeDomain, irb: Irb, r: Router, att: NetAttachment, opts: Options)
    requires RenderIrb(bd, irb, r, att, opts).Some?
    ensures Covered(RenderIrb(bd, irb, r, att, opts).value)
  {
    var c, port := L3Of(r).value, Port(opts.ports, att.attachment).value;
    var rb := IrbRollback(bd, c, port, opts);
    IrbTakenBack(bd, c, port, opts, rb);
  }

  lemma IrbRollback(bd: BridgeDomain, c: L3, port: string, opts: Options) returns (rb: seq<Write>)
    ensures rb == L2Rollback(bd, port, opts) + [DelRow(MapRow(opts.vtep, c.vni, c.vlan)), DelRow(VlanRow(c.vlan)), DelRow(VrfRow(c.vrf))]
    ensures DelRow(MapRow(opts.vtep, bd.l2vni, bd.vlan)) in rb && DelRow(VlanRow(bd.vlan)) in rb && Leave(port, bd.vlan) in rb
    ensures DelRow(MapRow(opts.vtep, c.vni, c.vlan)) in rb && DelRow(VlanRow(c.vlan)) in rb && DelRow(VrfRow(c.vrf)) in rb
  {
    var routed := [DelRow(MapRow(opts.vtep, c.vni, c.vlan)), DelRow(VlanRow(c.vlan)), DelRow(VrfRow(c.vrf))];
    var bridged := L2Rollback(bd, port, opts);
    rb := bridged + routed;
    assert bridged[0] in rb && bridged[1] in rb && bridged[2] in rb && routed[0] in rb && routed[1] in rb && routed[2] in rb;
  }

  lemma IrbTakenBack(bd: BridgeDomain, c: L3, port: string, opts: Options, rb: seq<Write>)
    requires DelRow(MapRow(opts.vtep, bd.l2vni, bd.vlan)) in rb && DelRow(VlanRow(bd.vlan)) in rb && Leave(port, bd.vlan) in rb
    requires DelRow(MapRow(opts.vtep, c.vni, c.vlan)) in rb && DelRow(VlanRow(c.vlan)) in rb && DelRow(VrfRow(c.vrf)) in rb
    ensures TakenBack(BaselineOps(opts) + [VrfWrite(c), VlanWrite(bd.vlan)] + MapWrites(opts.vtep, bd.l2vni, bd.vlan) + [VlanWrite(c.vlan)]
      + MapWrites(opts.vtep, c.vni, c.vlan) + AccessPort(port, bd.vlan) + [DropStaleMaps(opts.vtep, bd.vlan, bd.l2vni)], rb)
  {
    BaselineBack(opts, rb);
    VrfBack(c, rb);
    RowsBack(opts, c.vni, c.vlan, port, rb);
    RowsBack(opts, bd.l2vni, bd.vlan, port, rb);
    assert [VrfWrite(c), VlanWrite(bd.vlan)] == [VrfWrite(c)] + [VlanWrite(bd.vlan)];
    BackConcat([VrfWrite(c)], [VlanWrite(bd.vlan)], rb);
    var o1 := BaselineOps(opts) + [VrfWrite(c), VlanWrite(bd.vlan)];
    BackConcat(BaselineOps(opts), [VrfWrite(c), VlanWrite(bd.vlan)], rb);
    var o2 := o1 + MapWrites(opts.vtep, bd.l2vni, bd.vlan);
    BackConcat(o1, MapWrites(opts.vtep, bd.l2vni, bd.vlan), rb);
    var o3 := o2 + [VlanWrite(c.vlan)];
    BackConcat(o2, [VlanWrite(c.vlan)], rb);
    var o4 := o3 + MapWrites(opts.vtep, c.vni, c.vlan);
    BackConcat(o3, MapWrites(opts.vtep, c.vni, c.vlan), rb);
    var o5 := o4 + AccessPort(port, bd.vlan);
    BackConcat(o4, AccessPort(port, bd.vlan), rb);
    BackConcat(o5, [DropStaleMaps(opts.vtep, bd.vlan, bd.l2vni)], rb);
  }

  lemma VlanCovered(v: LocalVlan, att: NetAttachment, opts: Options)
    requires RenderVlan(v, att, opts).Some?
    ensures Covered(RenderVlan(v, att, opts).value)
  {
  }

  lemma RowCovered(key: RowKey, fields: seq<(string, string)>, checks: seq<Check>)
    ensures Covered(NodePlan(HSets(key, fields), checks, [DelRow(key)]))
  {
  }

  lemma {:induction false} RulePlansCovered(al: AccessList, table: string, rules: seq<AclRule>)
    ensures Covered(RulePlans(al, table, rules))
  {
    if rules != [] {
      var key := AclRuleRow(table, rules[0].name);
      RowCovered(key, RuleFields(al, rules[0]), FieldChecks(key, CheckedFields(al, rules[0])));
      RulePlansCovered(al, table, rules[1..]);
      CoveredAppend(NodePlan(HSets(key, RuleFields(al, rules[0])), FieldChecks(key, CheckedFields(al, rules[0])), [DelRow(key)]),
                    RulePlans(al, table, rules[1..]));
    }
  }

  lemma AclCovered(al: AccessList, ports: seq<string>, net: Network)
    requires RenderAcl(al, ports, net).Some?
    ensures Covered(RenderAcl(al, ports, net).value)
  {
    if ports != [] {
      var table := DeviceAclTable(net.name, al.stage).value;
      var key := AclTableRow(table);
      var rules := Append(RulePlans(al, table, al.rules), DefaultPlan(al, table));
      RulePlansCovered(al, table, al.rules);
      RowCovered(AclRuleRow(table, "default"), DefaultFields(al), FieldChecks(AclRuleRow(table, "default"), DefaultFields(al)));
      CoveredAppend(RulePlans(al, table, al.rules), DefaultPlan(al, table));
      TableCovered(rules, key, TableFields(al, ports, net), FieldChecks(key, TableChecked(al, ports)));
    }
  }

  lemma TableCovered(rules: NodePlan, key: RowKey, fields: seq<(string, string)>, checks: seq<Check>)
    requires Covered(rules)
    ensures Covered(NodePlan(HSets(key, fields) + rules.ops, rules.checks + checks, rules.rollback + [DelRow(key)]))
  {
  }

  lemma RenderOneCovered(net: Network, att: NetAttachment, opts: Options)
    requires RenderOne(net, att, opts).Some?
    ensures Covered(RenderOne(net, att, opts).value)
  {
    var routers, bds, vls := RouterMap(net.routers), DomainMap(net.bridgeDomains), VlanMap(net.vlans);
    if att.vrf != "" {
      L3Covered(routers[att.vrf], att, opts);
    } else if att.vlan != 0 {
      if att.vlan in bds {
        match bds[att.vlan].irb
        case None => L2Covered(bds[att.vlan], att, opts);
        case Some(irb) => IrbCovered(bds[att.vlan], irb, routers[irb.vrf], att, opts);
      } else {
        VlanCovered(vls[att.vlan], att, opts);
      }
    }
  }

  lemma {:induction false} AttsCovered(net: Network, atts: seq<NetAttachment>, opts: Options)
    requires RenderAtts(net, atts, opts).Some?
    ensures forall n :: n in RenderAtts(net, atts, opts).value ==> Covered(RenderAtts(net, atts, opts).value[n])
    decreases |atts|
  {
    if atts != [] {
      var att := atts[|atts| - 1];
      AttsCovered(net, atts[..|atts| - 1], opts);
      RenderOneCovered(net, att, opts);
      var plan := RenderAtts(net, atts[..|atts| - 1], opts).value;
      CoveredAppend(NodeOf(plan, att.node), RenderOne(net, att, opts).value);
    }
  }

  lemma {:induction false} AclsCovered(net: Network, als: seq<AccessList>, ports: seq<string>, opts: Options)
    requires RenderAcls(net, als, ports, opts).Some?
    ensures Covered(RenderAcls(net, als, ports, opts).value)
    decreases |als|
  {
    if als != [] {
      AclsCovered(net, als[..|als| - 1], ports, opts);
      AclCovered(als[|als| - 1], ports, net);
      CoveredAppend(RenderAcls(net, als[..|als| - 1], ports, opts).value, RenderAcl(als[|als| - 1], ports, net).value);
    }
  }

  /** Every row and access-port membership a rendered node plan creates, the shared
      overlay baseline apart, is one its rollback removes. */
  lemma RollbackCoversOps(net: Network, opts: Options, n: Node)
    requires ForNetwork(net, opts).Some? && n in ForNetwork(net, opts).value
    ensures Covered(ForNetwork(net, opts).value[n])
  {
    var o := WithDefaults(opts);
    var atts := SortAtts(net.attachments);
    AttsCovered(net, atts, o);
    var plan := RenderAtts(net, atts, o).value;
    if net.accessLists != [] {
      var ports := SortedKeys(PortsOn(atts, n, o));
      AclsCovered(net, net.accessLists, ports, o);
      CoveredAppend(plan[n], RenderAcls(net, net.accessLists, ports, o).value);
    }
  }

  // ---- order ---------------------------------------------------------------------------

  ghost predicate InOrder(atts: seq<NetAttachment>) {
    forall i, j :: 0 <= i < j < |atts| ==> Before(atts[i], atts[j])
  }

  /** No two attachments name the same node and port. */
  ghost predicate DistinctPairs(atts: seq<NetAttachment>) {
    forall i, j :: 0 <= i < j < |atts| ==> atts[i].node != atts[j].node || atts[i].attachment != atts[j].attachment
  }

  lemma BeforeTotal(a: NetAttachment, b: NetAttachment)
    ensures Before(a, b) || Before(b, a)
  {
    LeTotal(a.node, b.node);
    LeTotal(a.attachment, b.attachment);
  }

  lemma BeforeTransitive(a: NetAttachment, b: NetAttachment, c: NetAttachment)
    requires Before(a, b) && Before(b, c)
    ensures Before(a, c)
  {
    if a.node == b.node && b.node == c.node { LeTransitive(a.attachment, b.attachment, c.attachment); }
    else {
      LeTransitiveNodes(a, b, c);
    }
  }

  lemma LeTransitiveNodes(a: NetAttachment, b: NetAttachment, c: NetAttachment)
    requires Before(a, b) && Before(b, c) && !(a.node == b.node && b.node == c.node)
    ensures a.node != c.node && Le(a.node, c.node)
  {
    LeTotal(a.node, b.node);
    LeTotal(b.node, c.node);
    LeReflexive(a.node);
    LeReflexive(b.node);
    LeTransitive(a.node, b.node, c.node);
    if a.node == c.node { LeAntisymmetric(a.node, b.node); }
  }

  lemma LeReflexive(s: string)
    ensures Le(s, s)
  {
    LeTotal(s, s);
  }

  lemma BeforeAntisymmetric(a: NetAttachment, b: NetAttachment)
    requires Before(a, b) && Before(b, a)
    ensures a.node == b.node && a.attachment == b.attachment
  {
    if a.node != b.node { LeAntisymmetric(a.node, b.node); } else { LeAntisymmetric(a.attachment, b.attachment); }
  }

  lemma {:induction false} InsertSorts(a: NetAttachment, sorted: seq<NetAttachment>)
    requires InOrder(sorted)
    ensures InOrder(Insert(a, sorted)) && multiset(Insert(a, sorted)) == multiset(sorted) + multiset{a}
  {
    var r := Insert(a, sorted);
    if sorted == [] {
    } else if Before(a, sorted[0]) {
      forall j | 0 <= j < |sorted| ensures Before(a, sorted[j]) {
        if j > 0 { BeforeTransitive(a, sorted[0], sorted[j]); }
      }
    } else {
      var tail := Insert(a, sorted[1..]);
      InsertSorts(a, sorted[1..]);
      BeforeTotal(a, sorted[0]);
      assert sorted == [sorted[0]] + sorted[1..];
      forall j | 0 <= j < |tail| ensures Before(sorted[0], tail[j]) {
        assert tail[j] in multiset(tail);
        assert tail[j] in multiset(sorted[1..]) || tail[j] == a;
        if tail[j] != a {
          var k :| 0 <= k < |sorted[1..]| && sorted[1..][k] == tail[j];
          assert sorted[k + 1] == tail[j];
        }
      }
    }
  }

  lemma {:induction false} SortSorts(atts: seq<NetAttachment>)
    ensures InOrder(SortAtts(atts)) && multiset(SortAtts(atts)) == multiset(atts)
  {
    if atts != [] {
      SortSorts(atts[1..]);
      InsertSorts(atts[0], SortAtts(atts[1..]));
      assert atts == [atts[0]] + atts[1..];
    }
  }

  ghost predicate PairsNameOne(a: seq<NetAttachment>) {
    forall x, y :: x in a && y in a && x.node == y.node && x.attachment == y.attachment ==> x == y
  }

  lemma FirstsAgree(a: seq<NetAttachment>, b: seq<NetAttachment>)
    requires a != [] && b != [] && InOrder(a) && InOrder(b) && multiset(a) == multiset(b) && PairsNameOne(a)
    ensures a[0] == b[0]
  {
    assert a[0] in multiset(b) && b[0] in multiset(a);
    var i :| 0 <= i < |b| && b[i] == a[0];
    var j :| 0 <= j < |a| && a[j] == b[0];
    if i > 0 && j > 0 { BeforeAntisymmetric(a[0], b[0]); }
  }

  lemma {:induction false} OrderedUnique(a: seq<NetAttachment>, b: seq<NetAttachment>)
    requires InOrder(a) && InOrder(b) && multiset(a) == multiset(b) && PairsNameOne(a)
    ensures a == b
    decreases |a|
  {
    assert |multiset(a)| == |a| && |multiset(b)| == |b|;
    if a != [] {
      FirstsAgree(a, b);
      assert a == [a[0]] + a[1..] && b == [b[0]] + b[1..];
      assert multiset(a[1..]) == multiset(a) - multiset{a[0]} && multiset(b[1..]) == multiset(b) - multiset{b[0]};
      OrderedUnique(a[1..], b[1..]);
    }
  }

  lemma PairsOfPermutation(atts: seq<NetAttachment>, a: seq<NetAttachment>)
    requires DistinctPairs(atts) && multiset(a) == multiset(atts)
    ensures PairsNameOne(a)
  {
    forall x, y | x in a && y in a && x.node == y.node && x.attachment == y.attachment ensures x == y {
      assert x in multiset(atts) && y in multiset(atts);
      var i :| 0 <= i < |atts| && atts[i] == x;
      var j :| 0 <= j < |atts| && atts[j] == y;
      assert i == j;
    }
  }

  /** Permuting attachments that name distinct node and port pairs gives the same
      plan. */
  lemma AttachmentOrderIsIrrelevant(net: Network, opts: Options, permuted: seq<NetAttachment>)
    requires DistinctPairs(net.attachments) && multiset(permuted) == multiset(net.attachments)
    ensures ForNetwork(net.(attachments := permuted), opts) == ForNetwork(net, opts)
  {
    var other := net.(attachments := permuted);
    var a, b := SortAtts(net.attachments), SortAtts(permuted);
    SortSorts(net.attachments);
    SortSorts(permuted);
    PairsOfPermutation(net.attachments, a);
    OrderedUnique(a, b);
    SameRender(net, other, a, WithDefaults(opts));
    assert Admissible(other, WithDefaults(opts)) == Admissible(net, WithDefaults(opts));
  }

  lemma SameRender(net: Network, other: Network, atts: seq<NetAttachment>, opts: Options)
    requires other == net.(attachments := other.attachments)
    ensures RenderAtts(other, atts, opts) == RenderAtts(net, atts, opts)
    ensures RenderAtts(net, atts, opts).Some? ==>
      BindAcls(other, RenderAtts(net, atts, opts).value, atts, opts) == BindAcls(net, RenderAtts(net, atts, opts).value, atts, opts)
  {
    SameAtts(net, other, atts, opts);
    if RenderAtts(net, atts, opts).Some? { SameAcls(net, other, RenderAtts(net, atts, opts).value, atts, opts); }
  }

  lemma SameOne(net: Network, other: Network, att: NetAttachment, opts: Options)
    requires other == net.(attachments := other.attachments)
    ensures RenderOne(other, att, opts) == RenderOne(net, att, opts)
  {
  }

  lemma {:induction false} SameAtts(net: Network, other: Network, atts: seq<NetAttachment>, opts: Options)
    requires other == net.(attachments := other.attachments)
    ensures RenderAtts(other, atts, opts) == RenderAtts(net, atts, opts)
    decreases |atts|
  {
    if atts != [] {
      SameAtts(net, other, atts[..|atts| - 1], opts);
      SameOne(net, other, atts[|atts| - 1], opts);
    }
  }

  lemma SameAcls(net: Network, other: Network, plan: Plan, atts: seq<NetAttachment>, opts: Options)
    requires other == net.(attachments := other.attachments)
    ensures BindAcls(other, plan, atts, opts) == BindAcls(net, plan, atts, opts)
  {
    forall n ensures AclsFor(other, atts, n, opts) == AclsFor(net, atts, n, opts) {
      SameAclList(net, other, net.accessLists, SortedKeys(PortsOn(atts, n, opts)), opts);
    }
    if net.accessLists != [] && PortsResolve(atts, opts) { SameBinding(net, other, plan, atts, opts); }
  }

  lemma SameBinding(net: Network, other: Network, plan: Plan, atts: seq<NetAttachment>, opts: Options)
    requires net.accessLists != [] && other.accessLists != [] && PortsResolve(atts, opts)
    requires forall n :: AclsFor(other, atts, n, opts) == AclsFor(net, atts, n, opts)
    ensures BindAcls(other, plan, atts, opts) == BindAcls(net, plan, atts, opts)
  {
    if exists n :: n in plan && AclsFor(net, atts, n, opts).None? {
    } else {
      assert BindAcls(other, plan, atts, opts).value == BindAcls(net, plan, atts, opts).value;
    }
  }

  lemma {:induction false} SameAclList(net: Network, other: Network, als: seq<AccessList>, ports: seq<string>, opts: Options)
    requires other == net.(attachments := other.attachments)
    ensures RenderAcls(other, als, ports, opts) == RenderAcls(net, als, ports, opts)
    decreases |als|
  {
    if als != [] { SameAclList(net, other, als[..|als| - 1], ports, opts); }
  }

  // ---- the nodes of a plan -----------------------------------------------------------

  ghost predicate Names(atts: seq<NetAttachment>, n: Node) {
    exists i :: 0 <= i < |atts| && atts[i].node == n
  }

  lemma NamesNext(atts: seq<NetAttachment>, n: Node)
    requires atts != []
    ensures Names(atts, n) <==> Names(atts[..|atts| - 1], n) || atts[|atts| - 1].node == n
  {
    var rest := atts[..|atts| - 1];
    if Names(rest, n) {
      var i :| 0 <= i < |rest| && rest[i].node == n;
      assert atts[i].node == n;
    }
    if Names(atts, n) {
      var i :| 0 <= i < |atts| && atts[i].node == n;
      if i < |rest| { assert rest[i].node == n; }
    }
  }

  /** A plan covers exactly the nodes the attachments name. */
  lemma {:induction false} NodesOfAtts(net: Network, atts: seq<NetAttachment>, opts: Options)
    requires RenderAtts(net, atts, opts).Some?
    ensures forall n :: n in RenderAtts(net, atts, opts).value <==> Names(atts, n)
    decreases |atts|
  {
    if atts != [] {
      NodesOfAtts(net, atts[..|atts| - 1], opts);
      forall n ensures n in RenderAtts(net, atts, opts).value <==> Names(atts, n) { NamesNext(atts, n); }
    }
  }

  // ---- derived VLANs ---------------------------------------------------------------------

  /** In an accepted Network the derived VLANs are pairwise distinct and differ
      from every declared one, whatever the identifiers. */
  lemma DerivedVlansApart(net: Network, opts: Options, a: string, b: string)
    requires ForNetwork(net, opts).Some?
    requires var rs := RouterMap(net.routers); a in rs && b in rs && rs[a].l3vni != 0 && rs[b].l3vni != 0
    ensures var rs := RouterMap(net.routers);
      var v := L3VlanForVni(rs[a].l3vni);
      && v.Some? && Base < v.value <= 4094
      && (a != b ==> v != L3VlanForVni(rs[b].l3vni))
      && (forall bd :: bd in net.bridgeDomains ==> bd.vlan != v.value)
      && (forall lv :: lv in net.vlans ==> lv.vlan != v.value)
  {
    var rs := RouterMap(net.routers);
    assert L3VlanForVni(rs[a].l3vni).Some?;
    InBand(rs[a].l3vni);
  }
}
