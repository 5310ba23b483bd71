/** Accepted inputs on the failing side of what the validator does not look at. */
module FailingInputs {
  import opened Text
  import opened SiteNames
  import opened NetworkModel
  import opened NetworkRender
  import opened NetworkChecks
  import opened NetworkLaws
  import opened Intent
  import opened IntentCheck
  import opened Translate
  import opened ShadowedRule

  const OnePort: PortMap := map["wan1" := "Ethernet8"]

  /** A site with one access port, where every text parses as an IPv4 prefix. */
  const OneSite := Options(OnePort, "", "", (p: string) => true)
  const OneEnv := Env(Some(Inventory([], ["wan1"], [])), (p: string) => Addr.V4)

  lemma OneSiteIsOne()
    ensures Known(OnePort) == ["wan1"] && SameSite(OneEnv, OneSite)
    ensures Knows(["wan1"], "wan1")
  {
    var names := Known(OnePort);
    assert (set k | k in OnePort && OnePort[k] != "") == {"wan1"};
    SortedUnique(names, ["wan1"]);
    assert Normalize("wan1") == Normalize("wan1");
  }

  // ---- a hidden default action --------------------------------------------------------------

  const DefaultRule := Rule("default", 10, "permit", "tcp", "", "", "", "", "")
  const HiddenAcl := Acl("", "ingress", "l3", [DefaultRule], "deny", "")
  const HiddenDefault := Input("edge", "acl", "acme", "", "", "", "", false, 0, 0, None, None, None, Some(HiddenAcl),
                               [Endpoint("leaf01", "wan1", 0, "")], false, {})

  lemma HiddenWords()
    ensures FoldWord("ingress") == "ingress" && FoldWord("deny") == "deny" && FoldWord("permit") == "permit"
    ensures FoldWord("tcp") == "tcp"
  {
    FoldedWord("ingress");
    FoldedWord("deny");
    FoldedWord("permit");
    FoldedWord("tcp");
  }

  lemma HiddenFamily()
    ensures TypeKey("l3") == "l3"
  {
    assert "l3"[1..] == "3" && "3"[1..] == "";
    assert TypeKey("3") == "3" + TypeKey("");
  }

  lemma HiddenRuleIsOk()
    ensures AclOk(HiddenAcl, OneEnv)
  {
    HiddenWords();
    HiddenFamily();
    assert ActionWord("permit").Some? && ProtocolWord("tcp").Some?;
    assert RuleOk(DefaultRule, "l3", OneEnv);
    assert StageWord("ingress").Some? && FamilyWord("l3").Some? && ActionWord("deny").Some?;
  }

  /** The validator accepts this access list, it renders, and one of its checks is
      false after its own ops on its node, whatever the node held. */
  lemma AcceptedListNeverVerifies(s: State)
    ensures Accepts(HiddenDefault, false, OneEnv) && SameSite(OneEnv, OneSite) && ToNetwork(HiddenDefault).Some?
    ensures var plan := ForNetwork(ToNetwork(HiddenDefault).value, OneSite);
      && plan.Some? && "leaf01" in plan.value
      && exists c :: c in plan.value["leaf01"].checks && !Holds(DoAll(s, plan.value["leaf01"].ops), c)
  {
    OneSiteIsOne();
    HiddenRuleIsOk();
    assert Accepts(HiddenDefault, false, OneEnv);
    ValidatedRendersExactly(HiddenDefault, false, OneEnv, OneSite);
    var net := ToNetwork(HiddenDefault).value;
    HasNode(net, "leaf01");
    var al := AccessListFor(HiddenAcl, "edge");
    assert al.rules[0].name == "default" && al.rules[0] in al.rules;
    assert Shadowed(al);
    ShadowedRuleNeverVerifies(HiddenDefault, false, OneEnv, OneSite, "leaf01", s);
  }

  lemma HasNode(net: Network, n: Node)
    requires ForNetwork(net, OneSite).Some? && |net.attachments| == 1 && net.attachments[0].node == n
    ensures n in ForNetwork(net, OneSite).value
  {
    var opts, atts := WithDefaults(OneSite), SortAtts(net.attachments);
    assert net.attachments[1..] == [] && SortAtts([]) == [];
    assert atts == Insert(net.attachments[0], []) == net.attachments;
    NodesOfAtts(net, atts, opts);
    assert Names(atts, n);
  }

  // ---- an id no VRF can be named after -------------------------------------------------------

  const Nameless := Input("..", "ip-vrf", "acme", "", "", "", "", true, 0, 10001, Some(Families(["10.0.0.0/24"], [])), None, None, None,
                          [Endpoint("leaf01", "wan1", 0, "red")], false, {})

  lemma NamelessIsAccepted()
    ensures Accepts(Nameless, false, OneEnv) && SameSite(OneEnv, OneSite) && !Renderable(Nameless, OneEnv.addr)
  {
    OneSiteIsOne();
    var id := Nameless.serviceId;
    assert forall i :: 0 <= i < |id| ==> !Usable(id[i]);
  }

  lemma NotRendered(x: Input, env: Env, opts: Options)
    requires Accepts(x, false, env) && !Srv6(x) && SameSite(env, opts) && !Renderable(x, env.addr)
    ensures ToNetwork(x).Some? && ForNetwork(ToNetwork(x).value, opts).None?
  {
    ValidatedRendersExactly(x, false, env, opts);
  }

  /** The validator accepts this routed service, and its Network is refused. */
  lemma AcceptedServiceIsNotRendered()
    ensures Accepts(Nameless, false, OneEnv) && SameSite(OneEnv, OneSite)
    ensures ToNetwork(Nameless).Some? && ForNetwork(ToNetwork(Nameless).value, OneSite).None?
  {
    NamelessIsAccepted();
    NotRendered(Nameless, OneEnv, OneSite);
  }
}
