/** ValidateAllOrNothing: the causes a service input is refused for, and the
    predicate an input without causes satisfies. */
module IntentCheck {
  import opened Text
  import opened SiteNames
  import opened Intent

  /** What the address parser makes of a text. */
  datatype Addr = NotAPrefix | V4 | V6

  datatype Inventory = Inventory(nodes: seq<string>, attachments: seq<string>, spines: seq<string>)

  /** The site as the validator sees it; no inventory validates nothing. */
  datatype Env = Env(inventory: Option<Inventory>, addr: string -> Addr)

  /** One cause: the property, and the element it is about. */
  datatype Cause = Cause(property: string, index: int)

  function Of(property: string): Cause {
    Cause(property, -1)
  }

  // ---- identity and claims ---------------------------------------------------------

  predicate IdentityOk(x: Input, dup: bool) {
    x.serviceId != "" && x.tenant != "" && x.kind != "" && !dup && x.claims == {}
  }

  method IdentityCauses(x: Input, dup: bool) returns (causes: seq<Cause>)
    ensures causes == [] <==> IdentityOk(x, dup)
  {
    causes := [];
    if x.serviceId == "" { causes := causes + [Of("serviceId")]; }
    if x.tenant == "" { causes := causes + [Of("tenant")]; }
    if x.kind == "" { causes := causes + [Of("type")]; }
    if dup { causes := causes + [Of("collision")]; }
    if TePolicy in x.claims { causes := causes + [Of("tePolicy")]; }
    if PseudowireOam in x.claims { causes := causes + [Of("pseudowireOAM")]; }
    if ControlWord in x.claims { causes := causes + [Of("controlWord")]; }
    if MulticastVpn in x.claims { causes := causes + [Of("multicastVPN")]; }
    if ComplexQos in x.claims { causes := causes + [Of("complexQoS")]; }
    if ServiceChain in x.claims { causes := causes + [Of("serviceChain")]; }
    if RawCli in x.claims { causes := causes + [Of("rawCLI")]; }
    assert causes == [] ==> x.claims == {} by {
      if causes == [] {
        forall c | c in x.claims ensures false {
          match c
          case TePolicy => case PseudowireOam => case ControlWord => case MulticastVpn => case ComplexQos => case ServiceChain =>
          case RawCli =>
        }
      }
    }
  }

  // ---- transport -------------------------------------------------------------------

  predicate Srv6(x: Input) {
    x.transport == "srv6"
  }

  predicate TransportOk(x: Input, env: Env) {
    if x.transport == "" || x.transport == "vxlan" then
      x.signalling == "" && (x.preferredSpine == "" || TePolicy in x.claims)
    else if Srv6(x) then
      && x.kind != "vlan" && x.kind != "acl"
      && x.l2vni == 0 && x.l3vni == 0 && !x.hasTargets
      && !(x.kind == "mac-vrf" && x.signalling == "vpn")
      && |x.endpoints| == 2 && x.endpoints[0].node != x.endpoints[1].node
      && (x.preferredSpine != "" && TePolicy !in x.claims && env.inventory.Some? && env.inventory.value.spines != [] ==>
            Knows(env.inventory.value.spines, x.preferredSpine))
    else false
  }

  method TransportCauses(x: Input, env: Env) returns (causes: seq<Cause>)
    ensures causes == [] <==> TransportOk(x, env)
  {
    causes := [];
    var transport := if x.transport == "" then "vxlan" else x.transport;
    if transport == "vxlan" {
      if x.signalling != "" { causes := causes + [Of("signalling")]; }
      if x.preferredSpine != "" && TePolicy !in x.claims { causes := causes + [Of("preferredSpine")]; }
    } else if transport == "srv6" {
      if x.kind == "vlan" || x.kind == "acl" { causes := causes + [Of("transport")]; }
      if x.l2vni != 0 || x.l3vni != 0 || x.hasTargets { causes := causes + [Of("srv6")]; }
      if x.kind == "mac-vrf" && x.signalling == "vpn" { causes := causes + [Of("signalling")]; }
      if |x.endpoints| != 2 || x.endpoints[0].node == x.endpoints[1].node { causes := causes + [Of("endpoints")]; }
      if x.preferredSpine != "" && TePolicy !in x.claims && env.inventory.Some? && env.inventory.value.spines != [] {
        var known := KnowsName(env.inventory.value.spines, x.preferredSpine);
        if !known { causes := causes + [Of("preferredSpine")]; }
      }
    } else {
      causes := causes + [Of("transport")];
    }
  }

  // ---- endpoints --------------------------------------------------------------------

  /** A bridge domain is one broadcast domain: every endpoint carries the one VLAN. */
  predicate OneVlan(eps: seq<Endpoint>) {
    && (forall i :: 0 <= i < |eps| ==> eps[i].vlan != 0)
    && (forall i, j :: 0 <= i < |eps| && 0 <= j < |eps| ==> eps[i].vlan == eps[j].vlan)
  }

  /** endpointVLANCauses: the first VLAN seen is the one the others must share. */
  method EndpointVlanCauses(eps: seq<Endpoint>) returns (causes: seq<Cause>)
    ensures causes == [] <==> OneVlan(eps)
  {
    causes := [];
    var vlan := 0;
    for i := 0 to |eps|
      invariant vlan == 0 ==> forall j :: 0 <= j < i ==> eps[j].vlan == 0
      invariant vlan != 0 ==> exists j :: 0 <= j < i && eps[j].vlan == vlan
      invariant causes == [] <==> forall j :: 0 <= j < i ==> eps[j].vlan != 0 && eps[j].vlan == vlan
    {
      if eps[i].vlan == 0 {
        causes := causes + [Cause("vlan", i)];
      } else if vlan == 0 {
        vlan := eps[i].vlan;
      } else if eps[i].vlan != vlan {
        causes := causes + [Cause("vlan", i)];
      }
    }
  }

  predicate BelowBand(eps: seq<Endpoint>) {
    forall i :: 0 <= i < |eps| ==> eps[i].vlan <= 4000
  }

  method BandCauses(eps: seq<Endpoint>) returns (causes: seq<Cause>)
    ensures causes == [] <==> BelowBand(eps)
  {
    causes := [];
    for i := 0 to |eps|
      invariant causes == [] <==> forall j :: 0 <= j < i ==> eps[j].vlan <= 4000
    {
      if eps[i].vlan > 4000 { causes := causes + [Cause("vlan", i)]; }
    }
  }

  predicate VrfsNamed(eps: seq<Endpoint>) {
    forall i :: 0 <= i < |eps| ==> eps[i].vrf != ""
  }

  method VrfCauses(eps: seq<Endpoint>) returns (causes: seq<Cause>)
    ensures causes == [] <==> VrfsNamed(eps)
  {
    causes := [];
    for i := 0 to |eps|
      invariant causes == [] <==> forall j :: 0 <= j < i ==> eps[j].vrf != ""
    {
      if eps[i].vrf == "" { causes := causes + [Cause("vrf", i)]; }
    }
  }

  predicate EndpointsKnown(eps: seq<Endpoint>, env: Env) {
    env.inventory.Some? ==>
      var inv := env.inventory.value;
      forall i :: 0 <= i < |eps| ==>
        && (inv.nodes != [] ==> Knows(inv.nodes, eps[i].node))
        && (inv.attachments != [] ==> Knows(inv.attachments, eps[i].attachment))
  }

  predicate EndpointKnown(ep: Endpoint, inv: Inventory) {
    && (inv.nodes != [] ==> Knows(inv.nodes, ep.node))
    && (inv.attachments != [] ==> Knows(inv.attachments, ep.attachment))
  }

  /** ValidateEndpoints. */
  method SiteCauses(eps: seq<Endpoint>, env: Env) returns (causes: seq<Cause>)
    ensures causes == [] <==> EndpointsKnown(eps, env)
  {
    causes := [];
    if env.inventory.None? { return; }
    var inv := env.inventory.value;
    for i := 0 to |eps|
      invariant causes == [] <==> forall j :: 0 <= j < i ==> EndpointKnown(eps[j], inv)
    {
      if inv.nodes != [] {
        var known := KnowsName(inv.nodes, eps[i].node);
        if !known { causes := causes + [Cause("node", i)]; }
      }
      if inv.attachments != [] {
        var known := KnowsName(inv.attachments, eps[i].attachment);
        if !known { causes := causes + [Cause("attachment", i)]; }
      }
    }
  }

  // ---- constructs ----------------------------------------------------------------------

  /** l3vniRenderableCauses. */
  predicate VniRenderable(vni: int) {
    vni == 0 || 10000 <= vni <= 14094
  }

  predicate VlanOk(x: Input) {
    && x.l2vni == 0 && x.l3vni == 0 && !x.hasTargets && x.gateway.None?
    && x.endpoints != [] && OneVlan(x.endpoints) && BelowBand(x.endpoints)
  }

  method VlanCauses(x: Input) returns (causes: seq<Cause>)
    ensures causes == [] <==> VlanOk(x)
  {
    causes := [];
    if x.l2vni != 0 { causes := causes + [Of("l2vni")]; }
    if x.l3vni != 0 { causes := causes + [Of("l3vni")]; }
    if x.hasTargets { causes := causes + [Of("rdRt")]; }
    if x.gateway.Some? { causes := causes + [Of("anycastGateway")]; }
    if |x.endpoints| < 1 { causes := causes + [Of("endpoints")]; }
    var vlans := EndpointVlanCauses(x.endpoints);
    var band := BandCauses(x.endpoints);
    causes := causes + vlans + band;
  }

  predicate MacVrfOk(x: Input) {
    && (x.l2vni != 0 || Srv6(x)) && (x.hasTargets || Srv6(x))
    && BelowBand(x.endpoints) && OneVlan(x.endpoints)
    && |x.endpoints| >= (if x.gateway.Some? then 1 else 2)
    && (match x.gateway
        case Some(g) => (Srv6(x) || (x.l3vni != 0 && VniRenderable(x.l3vni))) && (g.v4 != "" || g.v6 != "")
        case None => x.l3vni == 0 || Srv6(x))
    && (x.sourceType == "VPWS" ==> |x.endpoints| == 2 && x.limitedEquivalence)
  }

  method MacVrfCauses(x: Input) returns (causes: seq<Cause>)
    ensures causes == [] <==> MacVrfOk(x)
  {
    var srv6 := Srv6(x);
    causes := [];
    if x.l2vni == 0 && !srv6 { causes := causes + [Of("l2vni")]; }
    if !x.hasTargets && !srv6 { causes := causes + [Of("rdRt")]; }
    var minEndpoints := 2;
    var band := BandCauses(x.endpoints);
    if x.gateway.Some? { minEndpoints := 1; }
    if |x.endpoints| < minEndpoints { causes := causes + [Of("endpoints")]; }
    var vlans := EndpointVlanCauses(x.endpoints);
    if x.gateway.Some? {
      if x.l3vni == 0 && !srv6 { causes := causes + [Of("l3vni")]; }
      if !srv6 && !VniRenderable(x.l3vni) { causes := causes + [Of("l3vni")]; }
      if x.gateway.value.v4 == "" && x.gateway.value.v6 == "" { causes := causes + [Of("anycastGateway")]; }
    } else if x.l3vni != 0 && !srv6 {
      causes := causes + [Of("l3vni")];
    }
    if x.sourceType == "VPWS" {
      if |x.endpoints| != 2 { causes := causes + [Of("endpoints")]; }
      if !x.limitedEquivalence { causes := causes + [Of("policy")]; }
    }
    causes := causes + band + vlans;
  }

  predicate HasPrefixes(x: Input) {
    x.families.Some? && (x.families.value.v4 != [] || x.families.value.v6 != [])
  }

  predicate IpVrfOk(x: Input) {
    && (Srv6(x) || (x.l3vni != 0 && VniRenderable(x.l3vni) && x.hasTargets && HasPrefixes(x) && x.l2vni == 0 && VrfsNamed(x.endpoints)))
    && x.gateway.None? && x.endpoints != []
  }

  method IpVrfCauses(x: Input) returns (causes: seq<Cause>)
    ensures causes == [] <==> IpVrfOk(x)
  {
    var srv6 := Srv6(x);
    causes := [];
    if x.l3vni == 0 && !srv6 { causes := causes + [Of("l3vni")]; }
    if !srv6 && !VniRenderable(x.l3vni) { causes := causes + [Of("l3vni")]; }
    if !x.hasTargets && !srv6 { causes := causes + [Of("rdRt")]; }
    if !srv6 && !HasPrefixes(x) { causes := causes + [Of("addressFamilies")]; }
    if x.l2vni != 0 && !srv6 { causes := causes + [Of("l2vni")]; }
    if x.gateway.Some? { causes := causes + [Of("anycastGateway")]; }
    if |x.endpoints| < 1 { causes := causes + [Of("endpoints")]; }
    if !srv6 {
      var vrfs := VrfCauses(x.endpoints);
      causes := causes + vrfs;
    }
  }

  predicate AclServiceOk(x: Input) {
    x.acl.Some? && x.l2vni == 0 && x.l3vni == 0 && !x.hasTargets && x.gateway.None? && x.endpoints != []
  }

  method AclServiceCauses(x: Input) returns (causes: seq<Cause>)
    ensures causes == [] <==> AclServiceOk(x)
  {
    causes := [];
    if x.acl.None? { causes := causes + [Of("acl")]; }
    if x.l2vni != 0 || x.l3vni != 0 || x.hasTargets || x.gateway.Some? { causes := causes + [Of("acl")]; }
    if |x.endpoints| < 1 { causes := causes + [Of("endpoints")]; }
  }

  // ---- access lists ------------------------------------------------------------------------

  predicate IsDigits(s: string) {
    s != [] && forall i :: 0 <= i < |s| ==> '0' <= s[i] <= '9'
  }

  /** strconv.Atoi: a sign, and digits. */
  function Atoi(s: string): Option<int> {
    if s != [] && s[0] == '-' && IsDigits(s[1..]) then (var v: int := Value(s[1..]); Some(-v))
    else if s != [] && s[0] == '+' && IsDigits(s[1..]) then Some(Value(s[1..]))
    else if IsDigits(s) then Some(Value(s)) else None
  }

  predicate InRange(n: Option<int>, hi: int) {
    n.Some? && 0 <= n.value <= hi
  }

  predicate PrefixOk(prefix: string, family: string, env: Env) {
    prefix == "" || (
      var a := env.addr(prefix);
      && a != NotAPrefix
      && (FamilyWord(TypeKey(family)) == Some("l3") ==> a == V4)
      && (FamilyWord(TypeKey(family)) == Some("l3v6") ==> a != V4))
  }

  function CutHyphen(s: string): (r: (string, Option<string>)) {
    if s == [] then ([], None)
    else if s[0] == '-' then ([], Some(s[1..]))
    else
      var (lo, hi) := CutHyphen(s[1..]);
      ([s[0]] + lo, hi)
  }

  predicate PortOk(port: string, protocol: string) {
    port == "" || (
      && (ProtocolWord(FoldWord(protocol)) == Some("tcp") || ProtocolWord(FoldWord(protocol)) == Some("udp"))
      && var (lo, hi) := CutHyphen(port);
         && InRange(Atoi(TrimSpace(lo)), 65535)
         && (hi.Some? ==> InRange(Atoi(TrimSpace(hi.value)), 65535)
                          && Atoi(TrimSpace(lo)).value <= Atoi(TrimSpace(hi.value)).value))
  }

  /** What is asked of one rule by itself. */
  predicate RuleOk(r: Rule, family: string, env: Env) {
    && r.name != "" && 2 <= r.priority <= 65535
    && ActionWord(FoldWord(r.action)).Some?
    && (ProtocolWord(FoldWord(r.protocol)).Some? || InRange(Atoi(r.protocol), 255))
    && PrefixOk(r.sourcePrefix, family, env) && PrefixOk(r.destinationPrefix, family, env)
    && PortOk(r.sourcePort, r.protocol) && PortOk(r.destinationPort, r.protocol)
  }

  predicate RulesOk(rules: seq<Rule>, family: string, env: Env) {
    && (forall i :: 0 <= i < |rules| ==> RuleOk(rules[i], family, env))
    && (forall i, j :: 0 <= i < j < |rules| ==> rules[i].name != rules[j].name && rules[i].priority != rules[j].priority)
  }

  predicate AclOk(a: Acl, env: Env) {
    && StageWord(FoldWord(a.stage)).Some?
    && (a.bindTo == "" || a.bindTo == "port")
    && FamilyWord(TypeKey(a.family)).Some?
    && (a.defaultAction != "" ==> ActionWord(FoldWord(a.defaultAction)).Some?)
    && a.rules != [] && RulesOk(a.rules, a.family, env)
  }

  method RuleCauses(rules: seq<Rule>, family: string, env: Env) returns (causes: seq<Cause>)
    ensures causes == [] <==> RulesOk(rules, family, env)
  {
    causes := [];
    var seenName: set<string> := {};
    var seenPriority: set<int> := {};
    for i := 0 to |rules|
      invariant causes == [] <==> RulesOk(rules[..i], family, env)
      invariant causes == [] ==> seenName == (set r | r in rules[..i] :: r.name) && seenPriority == (set r | r in rules[..i] :: r.priority)
    {
      var r := rules[i];
      RulesNext(rules, i, family, env);
      if r.name == "" || r.name in seenName { causes := causes + [Cause("name", i)]; } else { seenName := seenName + {r.name}; }
      if r.priority < 2 || r.priority > 65535 || r.priority in seenPriority {
        causes := causes + [Cause("priority", i)];
      } else {
        seenPriority := seenPriority + {r.priority};
      }
      if ActionWord(FoldWord(r.action)).None? { causes := causes + [Cause("action", i)]; }
      if ProtocolWord(FoldWord(r.protocol)).None? && !InRange(Atoi(r.protocol), 255) { causes := causes + [Cause("protocol", i)]; }
      if !PrefixOk(r.sourcePrefix, family, env) { causes := causes + [Cause("sourcePrefix", i)]; }
      if !PrefixOk(r.destinationPrefix, family, env) { causes := causes + [Cause("destinationPrefix", i)]; }
      if !PortOk(r.sourcePort, r.protocol) { causes := causes + [Cause("sourcePort", i)]; }
      if !PortOk(r.destinationPort, r.protocol) { causes := causes + [Cause("destinationPort", i)]; }
    }
    assert rules[..|rules|] == rules;
  }

  lemma RulesNext(rules: seq<Rule>, i: nat, family: string, env: Env)
    requires i < |rules|
    ensures RulesOk(rules[..i + 1], family, env) <==>
      RulesOk(rules[..i], family, env) && RuleOk(rules[i], family, env)
      && rules[i].name !in (set r | r in rules[..i] :: r.name) && rules[i].priority !in (set r | r in rules[..i] :: r.priority)
    ensures (set r | r in rules[..i + 1] :: r.name) == (set r | r in rules[..i] :: r.name) + {rules[i].name}
    ensures (set r | r in rules[..i + 1] :: r.priority) == (set r | r in rules[..i] :: r.priority) + {rules[i].priority}
  {
    var s, t := rules[..i], rules[..i + 1];
    assert t == s + [rules[i]];
    if RulesOk(t, family, env) {
      forall j | 0 <= j < i ensures RuleOk(s[j], family, env) { assert s[j] == t[j]; }
      assert RuleOk(t[i], family, env);
      forall r | r in s ensures r.name != rules[i].name && r.priority != rules[i].priority {
        var j :| 0 <= j < i && s[j] == r;
        assert t[j] == r && t[i] == rules[i];
      }
      forall j, k | 0 <= j < k < i ensures s[j].name != s[k].name && s[j].priority != s[k].priority {
        assert t[j] == s[j] && t[k] == s[k];
      }
    }
  }

  /** aclCauses. */
  method AclCauses(a: Acl, env: Env) returns (causes: seq<Cause>)
    ensures causes == [] <==> AclOk(a, env)
  {
    causes := [];
    if StageWord(FoldWord(a.stage)).None? { causes := causes + [Of("acl.stage")]; }
    if a.bindTo != "" && a.bindTo != "port" { causes := causes + [Of("acl.bindTo")]; }
    if FamilyWord(TypeKey(a.family)).None? { causes := causes + [Of("acl.type")]; }
    if a.defaultAction != "" && ActionWord(FoldWord(a.defaultAction)).None? { causes := causes + [Of("acl.defaultAction")]; }
    if a.rules == [] { causes := causes + [Of("acl.rules")]; }
    var rules := RuleCauses(a.rules, a.family, env);
    causes := causes + rules;
  }

  // ---- the whole ------------------------------------------------------------------------------

  predicate ConstructOk(x: Input) {
    if x.kind == "vlan" then VlanOk(x)
    else if x.kind == "mac-vrf" then MacVrfOk(x)
    else if x.kind == "ip-vrf" then IpVrfOk(x)
    else if x.kind == "acl" then AclServiceOk(x)
    else false
  }

  /** What an accepted input satisfies, in canonical form. */
  predicate Accepts(x: Input, dup: bool, env: Env) {
    && IdentityOk(x, dup) && TransportOk(x, env) && x.endpoints != [] && ConstructOk(x)
    && (x.acl.Some? ==> AclOk(x.acl.value, env))
    && EndpointsKnown(x.endpoints, env)
  }

  method ConstructCauses(x: Input) returns (causes: seq<Cause>)
    ensures causes == [] <==> ConstructOk(x)
  {
    if x.kind == "vlan" { causes := VlanCauses(x); }
    else if x.kind == "mac-vrf" { causes := MacVrfCauses(x); }
    else if x.kind == "ip-vrf" { causes := IpVrfCauses(x); }
    else if x.kind == "acl" { causes := AclServiceCauses(x); }
    else { causes := [Of("type")]; }
  }

  /** The input an operator submitted, which validation folds in place. */
  class Request {
    var input: Input

    constructor (x: Input)
      ensures input == x
    {
      input := x;
    }

    /** Canonicalize. */
    method Canonicalize()
      modifies this
      ensures input == Canonical(old(input))
    {
      var x := input;
      var key := TypeKey(x.kind);
      if LegacyType(key).Some? { input := input.(sourceType := LegacyType(key).value); }
      if CanonicalType(key).Some? { input := input.(kind := CanonicalType(key).value); }
      if x.irbGateway.Some? {
        if x.gateway.None? { input := input.(gateway := x.irbGateway); }
        input := input.(irbGateway := None);
      }
      if x.acl.Some? { input := input.(acl := Some(CanonicalAcl(x.acl.value))); }
    }

    /** ValidateAllOrNothing: fold, and collect every cause. */
    method Validate(dup: bool, env: Env) returns (causes: seq<Cause>)
      modifies this
      ensures input == Canonical(old(input))
      ensures causes == [] <==> Accepts(input, dup, env)
    {
      Canonicalize();
      var identity := IdentityCauses(input, dup);
      var transport := TransportCauses(input, env);
      var some := if input.endpoints == [] then [Of("endpoints")] else [];
      var construct := ConstructCauses(input);
      var acl: seq<Cause> := [];
      if input.acl.Some? { acl := AclCauses(input.acl.value, env); }
      var site := SiteCauses(input.endpoints, env);
      causes := identity + transport + some + construct + acl + site;
    }
  }
}
