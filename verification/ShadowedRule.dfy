/** The validator lets a rule be called default beside a default action. Both
    then write one row, and the service never verifies. */
module ShadowedRule {
  import opened Text
  import opened SiteNames
  import opened NetworkModel
  import opened NetworkRender
  import opened NetworkChecks
  import opened NetworkLaws
  import opened Intent
  import opened IntentCheck
  import opened Translate

  lemma {:induction false} RuleIsChecked(al: AccessList, table: string, rules: seq<AclRule>, r: AclRule)
    requires r in rules
    ensures RowField(AclRuleRow(table, r.name), "PRIORITY", Itoa(r.priority)) in RulePlans(al, table, rules).checks
  {
    if r == rules[0] {
      var key := AclRuleRow(table, r.name);
      var first := FieldChecks(key, CheckedFields(al, r));
      assert CheckedFields(al, r)[0] == ("PRIORITY", Itoa(r.priority));
      assert first[1] == RowField(key, "PRIORITY", Itoa(r.priority));
      assert first[1] in first;
    } else {
      RuleIsChecked(al, table, rules[1..], r);
    }
  }

  /** The default row's writes come last. */
  lemma DefaultWritesLast(s: State, before: seq<Write>, key: RowKey, al: AccessList)
    ensures Holds(DoAll(s, before + HSets(key, DefaultFields(al))), RowField(key, "PRIORITY", "1"))
  {
    var last := HSets(key, DefaultFields(al));
    DoAllConcat(s, before, last);
    var c := RowField(key, "PRIORITY", "1");
    assert last[0] == HSet(key, "PRIORITY", "1") && last[1] == HSet(key, "PACKET_ACTION", ActionToPacket(al.defaultAction));
    forall w | w in last ensures Spares(w, c) { assert w == last[0] || w == last[1]; }
    assert last[0] in last;
    EstablishedIsTrue(DoAll(s, before), last, c, last[0]);
  }

  lemma AclEndsWithDefault(al: AccessList, ports: seq<string>, net: Network)
    requires ports != [] && al.defaultAction != "" && DeviceAclTable(net.name, al.stage).Some?
    ensures var table := DeviceAclTable(net.name, al.stage).value;
      RenderAcl(al, ports, net).value.ops
        == HSets(AclTableRow(table), TableFields(al, ports, net)) + RulePlans(al, table, al.rules).ops
           + HSets(AclRuleRow(table, "default"), DefaultFields(al))
  {
  }

  lemma NodeHasPorts(net: Network, atts: seq<NetAttachment>, n: Node, opts: Options)
    requires RenderAtts(net, atts, opts).Some? && n in RenderAtts(net, atts, opts).value && PortsResolve(atts, opts)
    ensures SortedKeys(PortsOn(atts, n, opts)) != []
  {
    NodesOfAtts(net, atts, opts);
    assert Names(atts, n);
    var i :| 0 <= i < |atts| && atts[i].node == n;
    assert atts[i] in atts;
    assert Port(opts.ports, atts[i].attachment).value in PortsOn(atts, n, opts);
    assert Port(opts.ports, atts[i].attachment).value in SortedKeys(PortsOn(atts, n, opts));
  }

  /** A node's plan in a network with one list: what its attachments add, and then
      the list. */
  lemma NodeWithOneList(net: Network, opts: Options, n: Node, al: AccessList)
    requires ForNetwork(net, opts).Some? && n in ForNetwork(net, opts).value && net.accessLists == [al]
    ensures var o, atts := WithDefaults(opts), SortAtts(net.attachments);
      var ports := SortedKeys(PortsOn(atts, n, o));
      && RenderAtts(net, atts, o).Some? && n in RenderAtts(net, atts, o).value && PortsResolve(atts, o)
      && RenderAcls(net, [al], ports, o).Some?
      && ForNetwork(net, opts).value[n] == Append(RenderAtts(net, atts, o).value[n], RenderAcls(net, [al], ports, o).value)
  {
  }

  lemma OneListRenders(net: Network, ports: seq<string>, opts: Options, al: AccessList)
    requires RenderAcls(net, [al], ports, opts).Some?
    ensures RenderAcl(al, ports, net).Some? && RenderAcls(net, [al], ports, opts).value == Append(EmptyPlan, RenderAcl(al, ports, net).value)
  {
    assert [al][..0] == [];
  }

  /** Whatever the node held before, a validated service with such a rule leaves
      one of its own checks false on every node. */
  lemma ShadowedRuleNeverVerifies(x: Input, dup: bool, env: Env, opts: Options, n: Node, s: State)
    requires Accepts(x, dup, env) && !Srv6(x) && SameSite(env, opts) && ToNetwork(x).Some?
    requires ForNetwork(ToNetwork(x).value, opts).Some? && n in ForNetwork(ToNetwork(x).value, opts).value
    requires x.acl.Some? && Shadowed(AccessListFor(x.acl.value, x.serviceId))
    ensures var np := ForNetwork(ToNetwork(x).value, opts).value[n];
      exists c :: c in np.checks && !Holds(DoAll(s, np.ops), c)
  {
    var net := ToNetwork(x).value;
    var al := AccessListFor(x.acl.value, x.serviceId);
    hide ForNetwork, Holds;
    var r := ShadowingRule(x, env);
    assert net.accessLists == [al];
    hide ToNetwork, AccessListFor, Accepts;
    ShadowedInNetwork(net, opts, n, al, r, s);
  }

  /** The ops of a validated service make all of its checks true on a node exactly
      when no rule hides the default action. */
  lemma ChecksHoldExactly(x: Input, dup: bool, env: Env, opts: Options, n: Node, s: State)
    requires Accepts(x, dup, env) && !Srv6(x) && SameSite(env, opts) && ToNetwork(x).Some?
    requires ForNetwork(ToNetwork(x).value, opts).Some? && n in ForNetwork(ToNetwork(x).value, opts).value
    requires TunnelRow(WithDefaults(opts).vtep) in s.rows
    ensures var np := ForNetwork(ToNetwork(x).value, opts).value[n];
      (forall c :: c in np.checks ==> Holds(DoAll(s, np.ops), c)) <==>
      (x.acl.Some? ==> !Shadowed(AccessListFor(x.acl.value, x.serviceId)))
  {
    var np := ForNetwork(ToNetwork(x).value, opts).value[n];
    if x.acl.Some? && Shadowed(AccessListFor(x.acl.value, x.serviceId)) {
      ShadowedRuleNeverVerifies(x, dup, env, opts, n, s);
    } else {
      forall c | c in np.checks ensures Holds(DoAll(s, np.ops), c) {
        ValidatedChecksHold(x, dup, env, opts, n, s, c);
      }
    }
  }

  lemma ShadowedInNetwork(net: Network, opts: Options, n: Node, al: AccessList, r: AclRule, s: State)
    requires ForNetwork(net, opts).Some? && n in ForNetwork(net, opts).value && net.accessLists == [al] && net.name != ""
    requires al.defaultAction != "" && r in al.rules && r.name == "default" && r.priority >= 2
    ensures var np := ForNetwork(net, opts).value[n];
      exists c :: c in np.checks && !Holds(DoAll(s, np.ops), c)
  {
    var o, atts := WithDefaults(opts), SortAtts(net.attachments);
    var ports := SortedKeys(PortsOn(atts, n, o));
    NodeWithOneList(net, opts, n, al);
    NodeHasPorts(net, atts, n, o);
    OneListRenders(net, ports, o, al);
    ShadowedNode(net, al, ports, RenderAtts(net, atts, o).value[n], RenderAcl(al, ports, net).value, r, s);
  }

  lemma ShadowingRule(x: Input, env: Env) returns (r: AclRule)
    requires x.acl.Some? && AclOk(x.acl.value, env) && Shadowed(AccessListFor(x.acl.value, x.serviceId))
    ensures r in AccessListFor(x.acl.value, x.serviceId).rules && r.name == "default" && r.priority >= 2
  {
    var al := AccessListFor(x.acl.value, x.serviceId);
    r :| r in al.rules && r.name == "default";
    var i :| 0 <= i < |al.rules| && al.rules[i] == r;
    assert RuleOk(x.acl.value.rules[i], x.acl.value.family, env);
  }

  lemma ShadowedNode(net: Network, al: AccessList, ports: seq<string>, before: NodePlan, more: NodePlan, r: AclRule, s: State)
    requires ports != [] && al.defaultAction != "" && net.name != "" && r in al.rules && r.name == "default" && r.priority >= 2
    requires RenderAcl(al, ports, net) == Some(more)
    ensures var np := Append(before, Append(EmptyPlan, more));
      exists c :: c in np.checks && !Holds(DoAll(s, np.ops), c)
  {
    var np := Append(before, Append(EmptyPlan, more));
    var table := DeviceAclTable(net.name, al.stage).value;
    var key := AclRuleRow(table, "default");
    var first := before.ops + (HSets(AclTableRow(table), TableFields(al, ports, net)) + RulePlans(al, table, al.rules).ops);
    AclEndsWithDefault(al, ports, net);
    assert np.ops == first + HSets(key, DefaultFields(al));
    DefaultWritesLast(s, first, key, al);
    ShadowedCheck(al, ports, net, before, r);
    var c := RowField(key, "PRIORITY", Itoa(r.priority));
    OtherPriority(r.priority);
    assert c in np.checks && !Holds(DoAll(s, np.ops), c);
  }

  lemma OtherPriority(p: int)
    requires p >= 2
    ensures Itoa(p) != "1"
  {
    assert Itoa(1) == "1";
    if Itoa(p) == Itoa(1) { ItoaInjective(p, 1); }
  }

  lemma ShadowedCheck(al: AccessList, ports: seq<string>, net: Network, before: NodePlan, r: AclRule)
    requires ports != [] && net.name != "" && r in al.rules && r.name == "default" && RenderAcl(al, ports, net).Some?
    ensures RowField(AclRuleRow(DeviceAclTable(net.name, al.stage).value, "default"), "PRIORITY", Itoa(r.priority))
      in Append(before, Append(EmptyPlan, RenderAcl(al, ports, net).value)).checks
  {
    var table := DeviceAclTable(net.name, al.stage).value;
    RuleIsChecked(al, table, al.rules, r);
    var c := RowField(AclRuleRow(table, "default"), "PRIORITY", Itoa(r.priority));
    assert c in RenderAcl(al, ports, net).value.checks;
  }
}
