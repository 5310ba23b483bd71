/** The normalized service input and the folding of its vocabulary. */
module Intent {
  import opened Text
  import opened SiteNames
  import opened NetworkRender

  datatype Endpoint = Endpoint(node: string, attachment: string, vlan: int, vrf: string)
  datatype Families = Families(v4: seq<string>, v6: seq<string>)
  datatype Gateway = Gateway(v4: string, v6: string)
  datatype Rule = Rule(name: string, priority: int, action: string, protocol: string,
                       sourcePrefix: string, destinationPrefix: string, sourcePort: string, destinationPort: string,
                       description: string)
  datatype Acl = Acl(name: string, stage: string, family: string, rules: seq<Rule>, defaultAction: string, bindTo: string)

  /** Source features that are modelled only to be refused. */
  datatype Claim = TePolicy | PseudowireOam | ControlWord | MulticastVpn | ComplexQos | ServiceChain | RawCli

  datatype Input = Input(
    serviceId: string,
    kind: string,
    tenant: string,
    sourceType: string,
    transport: string,
    signalling: string,
    preferredSpine: string,
    hasTargets: bool,
    l2vni: int,
    l3vni: int,
    families: Option<Families>,
    gateway: Option<Gateway>,
    irbGateway: Option<Gateway>,
    acl: Option<Acl>,
    endpoints: seq<Endpoint>,
    limitedEquivalence: bool,
    claims: set<Claim>)

  // ---- words ----------------------------------------------------------------------

  predicate IsSeparator(c: char) {
    c == '-' || c == '_' || c == ' ' || c == '.' || c == '+'
  }

  /** typeKey: lower case, separators dropped. */
  function TypeKey(s: string): string {
    if s == [] then []
    else (if IsSeparator(LowerChar(s[0])) then [] else [LowerChar(s[0])]) + TypeKey(s[1..])
  }

  predicate IsBlank(c: char) {
    c == ' ' || c == '\t' || c == '\n' || c == '\r' || c as int == 11 || c as int == 12 || c as int == 0x85 || c as int == 0xA0
  }

  function TrimSpace(s: string): string
    decreases |s|
  {
    if s != [] && IsBlank(s[0]) then TrimSpace(s[1..])
    else if s != [] && IsBlank(s[|s| - 1]) then TrimSpace(s[..|s| - 1])
    else s
  }

  function FoldWord(s: string): string {
    Lower(TrimSpace(s))
  }

  function CanonicalType(key: string): Option<string> {
    if key == "vlan" then Some("vlan")
    else if key in ["macvrf", "l2vni", "vpls", "vpws", "eline", "l2l3irb", "irb"] then Some("mac-vrf")
    else if key in ["ipvrf", "l3vni", "l3vpn"] then Some("ip-vrf")
    else if key in ["acl", "accesslist"] then Some("acl")
    else None
  }

  function LegacyType(key: string): Option<string> {
    if key == "vpls" then Some("VPLS")
    else if key == "vpws" || key == "eline" then Some("VPWS")
    else if key == "l3vpn" then Some("L3VPN")
    else if key == "l2l3irb" || key == "irb" then Some("L2L3-IRB")
    else None
  }

  function StageWord(w: string): Option<string> {
    if w in ["ingress", "in", "inbound"] then Some("ingress")
    else if w in ["egress", "out", "outbound"] then Some("egress") else None
  }

  function FamilyWord(w: string): Option<string> {
    if w in ["l3", "ipv4", "ip"] then Some("l3")
    else if w in ["l3v6", "ipv6", "l3ipv6"] then Some("l3v6") else None
  }

  function ActionWord(w: string): Option<string> {
    if w in ["permit", "allow", "forward", "accept"] then Some("permit")
    else if w in ["deny", "drop", "block", "discard"] then Some("deny") else None
  }

  function ProtocolWord(w: string): Option<string> {
    if w == "" then Some("any")
    else if w in ["any", "tcp", "udp", "icmp", "igmp", "rsvp", "gre", "ah", "pim", "l2tp"] then Some(w) else None
  }

  function Or(word: Option<string>, kept: string): string {
    match word case Some(w) => w case None => kept
  }

  // ---- canonical form ---------------------------------------------------------------

  function CanonicalRule(r: Rule): Rule {
    r.(action := Or(ActionWord(FoldWord(r.action)), r.action), protocol := Or(ProtocolWord(FoldWord(r.protocol)), r.protocol))
  }

  function CanonicalAcl(a: Acl): Acl {
    a.(stage := Or(StageWord(FoldWord(a.stage)), a.stage),
       family := Or(FamilyWord(TypeKey(a.family)), a.family),
       defaultAction := if a.defaultAction == "" then "" else Or(ActionWord(FoldWord(a.defaultAction)), a.defaultAction),
       rules := seq(|a.rules|, i requires 0 <= i < |a.rules| => CanonicalRule(a.rules[i])))
  }

  function Canonical(x: Input): (r: Input) {
    x.(sourceType := Or(LegacyType(TypeKey(x.kind)), x.sourceType),
       kind := Or(CanonicalType(TypeKey(x.kind)), x.kind),
       gateway := if x.gateway.None? then x.irbGateway else x.gateway,
       irbGateway := None,
       acl := match x.acl case None => None case Some(a) => Some(CanonicalAcl(a)))
  }

  lemma {:induction false} PlainKey(s: string)
    requires forall i :: 0 <= i < |s| ==> Kept(s[i])
    ensures TypeKey(s) == s
  {
    if s != [] {
      assert Kept(s[0]);
      PlainKey(s[1..]);
      assert s == [s[0]] + s[1..];
    }
  }

  lemma {:induction false} KeyConcat(a: string, b: string)
    ensures TypeKey(a + b) == TypeKey(a) + TypeKey(b)
  {
    if a == [] {
      assert a + b == b;
    } else {
      assert (a + b)[1..] == a[1..] + b;
      KeyConcat(a[1..], b);
    }
  }

  lemma HyphenVanishes()
    ensures TypeKey("-") == []
  {
    assert "-"[1..] == [];
  }

  lemma HyphenKey(a: string, b: string)
    requires TypeKey(a) == a && TypeKey(b) == b
    ensures TypeKey(a + "-" + b) == a + b
  {
    HyphenVanishes();
    KeyConcat(a + "-", b);
    KeyConcat(a, "-");
  }

  lemma VlanKey()
    ensures TypeKey("vlan") == "vlan"
  {
    PlainKey("vlan");
  }

  lemma AclKey()
    ensures TypeKey("acl") == "acl"
  {
    PlainKey("acl");
  }

  lemma FamilyKeys()
    ensures TypeKey("l3") == "l3" && TypeKey("l3v6") == "l3v6"
  {
    PlainKey("l3");
    PlainKey("l3v6");
  }

  lemma MacVrfKey()
    ensures TypeKey("mac-vrf") == "macvrf"
  {
    PlainKey("mac");
    PlainKey("vrf");
    HyphenKey("mac", "vrf");
    assert "mac" + "-" + "vrf" == "mac-vrf" && "mac" + "vrf" == "macvrf";
  }

  lemma IpVrfKey()
    ensures TypeKey("ip-vrf") == "ipvrf"
  {
    PlainKey("ip");
    PlainKey("vrf");
    HyphenKey("ip", "vrf");
    assert "ip" + "-" + "vrf" == "ip-vrf" && "ip" + "vrf" == "ipvrf";
  }

  /** Folding a folded input changes nothing, so validating, hashing and
      translating all look at one form. */
  lemma CanonicalIsIdempotent(x: Input)
    ensures Canonical(Canonical(x)) == Canonical(x)
  {
    KindIsIdempotent(x.kind, x.sourceType);
    if x.acl.Some? { AclIsIdempotent(x.acl.value); }
  }

  lemma KindIsIdempotent(kind: string, source: string)
    ensures var folded := Or(CanonicalType(TypeKey(kind)), kind);
      && Or(CanonicalType(TypeKey(folded)), folded) == folded
      && Or(LegacyType(TypeKey(folded)), Or(LegacyType(TypeKey(kind)), source)) == Or(LegacyType(TypeKey(kind)), source)
  {
    var folding := CanonicalType(TypeKey(kind));
    if folding.Some? {
      CanonicalTypesAreFixed(folding.value);
    }
  }

  lemma FixedVlan()
    ensures CanonicalType("vlan") == Some("vlan") && LegacyType("vlan").None?
  {
  }

  lemma FixedMacVrf()
    ensures CanonicalType("macvrf") == Some("mac-vrf") && LegacyType("macvrf").None?
  {
  }

  lemma FixedIpVrf()
    ensures CanonicalType("ipvrf") == Some("ip-vrf") && LegacyType("ipvrf").None?
  {
  }

  lemma FixedAcl()
    ensures CanonicalType("acl") == Some("acl") && LegacyType("acl").None?
  {
  }

  lemma CanonicalTypesAreFixed(k: string)
    requires k == "vlan" || k == "mac-vrf" || k == "ip-vrf" || k == "acl"
    ensures CanonicalType(TypeKey(k)) == Some(k) && LegacyType(TypeKey(k)).None?
  {
    if k == "vlan" { VlanKey(); FixedVlan(); }
    else if k == "mac-vrf" { MacVrfKey(); FixedMacVrf(); }
    else if k == "ip-vrf" { IpVrfKey(); FixedIpVrf(); }
    else { AclKey(); FixedAcl(); }
  }

  /** A word of letters and digits in lower case is its own fold. */
  lemma FoldedWord(w: string)
    requires w != [] && forall i :: 0 <= i < |w| ==> Kept(w[i])
    ensures FoldWord(w) == w
  {
    assert TrimSpace(w) == w;
    assert forall i :: 0 <= i < |w| ==> Lower(w)[i] == w[i];
  }

  lemma StageWordsAreKept(w: string)
    requires w == "ingress" || w == "egress" || w == "permit" || w == "deny"
    ensures w != [] && forall i :: 0 <= i < |w| ==> Kept(w[i])
  {
  }

  lemma ProtocolWordsAreKept(w: string)
    requires w in ["any", "tcp", "udp", "icmp", "igmp", "rsvp", "gre", "ah", "pim", "l2tp"]
    ensures w != [] && forall i :: 0 <= i < |w| ==> Kept(w[i])
  {
  }

  lemma RuleIsIdempotent(r: Rule)
    ensures CanonicalRule(CanonicalRule(r)) == CanonicalRule(r)
  {
    ActionIsIdempotent(r.action);
    ProtocolIsIdempotent(r.protocol);
  }

  lemma ProtocolIsIdempotent(protocol: string)
    ensures var folded := Or(ProtocolWord(FoldWord(protocol)), protocol); Or(ProtocolWord(FoldWord(folded)), folded) == folded
  {
    if ProtocolWord(FoldWord(protocol)).Some? {
      ProtocolWordsAreKept(ProtocolWord(FoldWord(protocol)).value);
      FoldedWord(ProtocolWord(FoldWord(protocol)).value);
    }
  }

  lemma FamilyIsIdempotent(family: string)
    ensures var folded := Or(FamilyWord(TypeKey(family)), family); Or(FamilyWord(TypeKey(folded)), folded) == folded
  {
    FamilyKeys();
  }

  lemma StageIsIdempotent(stage: string)
    ensures var folded := Or(StageWord(FoldWord(stage)), stage); Or(StageWord(FoldWord(folded)), folded) == folded
  {
    if StageWord(FoldWord(stage)).Some? {
      StageWordsAreKept(StageWord(FoldWord(stage)).value);
      FoldedWord(StageWord(FoldWord(stage)).value);
    }
  }

  lemma ActionIsIdempotent(action: string)
    ensures var folded := Or(ActionWord(FoldWord(action)), action); Or(ActionWord(FoldWord(folded)), folded) == folded
    ensures ActionWord(FoldWord(action)).Some? ==> ActionWord(FoldWord(action)).value != ""
  {
    if ActionWord(FoldWord(action)).Some? {
      StageWordsAreKept(ActionWord(FoldWord(action)).value);
      FoldedWord(ActionWord(FoldWord(action)).value);
    }
  }

  lemma AclIsIdempotent(a: Acl)
    ensures CanonicalAcl(CanonicalAcl(a)) == CanonicalAcl(a)
  {
    FamilyIsIdempotent(a.family);
    StageIsIdempotent(a.stage);
    ActionIsIdempotent(a.defaultAction);
    forall i | 0 <= i < |a.rules| ensures CanonicalRule(CanonicalRule(a.rules[i])) == CanonicalRule(a.rules[i]) {
      RuleIsIdempotent(a.rules[i]);
    }
    assert CanonicalAcl(CanonicalAcl(a)).rules == CanonicalAcl(a).rules;
  }
}
