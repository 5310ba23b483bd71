/** The runs of the pass machine at the site of a controller with these facts: a
    port edit that lands inside an update, and a gateway edit whose pass loses its
    drift note. */
module Srv6Runs {
  import opened Text
  import opened ServiceObjects
  import opened SiteNames
  import opened PassMachine
  import opened PassInvariant
  import opened PassRuns
  import opened PassRecord
  import opened PassDrive
  import opened PassSilence
  import opened PassRace
  import opened Srv6Render
  import opened Srv6Laws
  import opened Srv6Site
  import opened Srv6Delete

  /** Distinct services carry distinct ids, and the hash is taken as injective. */
  ghost predicate Apart(corr: Key -> CorrId, keyOf: CorrId -> Option<Key>, hash: seq<Op> -> int) {
    (forall k :: keyOf(corr(k)) == Some(k)) && forall x, y :: hash(x) == hash(y) ==> x == y
  }

  /** The ops of a node name the node's port. */
  lemma OpsNamePort(spec: ServiceSpec, alloc: Allocations, facts: Facts, n: Node)
    requires BuildPlan(spec, alloc, facts).Some? && n in BuildPlan(spec, alloc, facts).value.nodes
    ensures |spec.attachments| == 2
    ensures var ops := BuildPlan(spec, alloc, facts).value.nodes[n].ops;
      |ops| > 1 && ops[1].Gcu? && |ops[1].patch| > 0 && ops[1].patch[0].AddRow? && ops[1].patch[0].row.InterfaceRow?
      && Port(facts.ports, PortOn(spec, n)) == Some(ops[1].patch[0].row.port)
  {
    var derived := facts.(sids := ServiceSids(spec, facts.locators));
    var frame, self, peer, link, addr := PartsOfPlan(spec, alloc, derived, n);
    PartsSeen(spec, alloc, facts, frame, n, self, peer, link, addr, BuildPlan(spec, alloc, facts).value.nodes[n]);
    SecondOp(spec, frame, n, self, peer, link, addr);
  }

  lemma SecondOp(spec: ServiceSpec, frame: Frame, n: Node, self: Attach, peer: Attach, link: string, addr: string)
    ensures var ops := NodeOps(spec, frame, n, self, peer, link, addr);
      |ops| > 1 && ops[1] == Gcu([AddRow(InterfaceRow(self.port), map["vrf_name" := frame.vrf]), AddRow(AddressRow(self.port, self.gw), map[])])
  {
  }

  /** A node's port moved between the two specs. */
  predicate PortMoved(a: ServiceSpec, b: ServiceSpec, facts: Facts, n: Node)
    requires |a.attachments| == 2 && |b.attachments| == 2
  {
    Attached(a, n) && Attached(b, n) && Port(facts.ports, PortOn(a, n)) != Port(facts.ports, PortOn(b, n))
  }

  lemma MovedPortHasOtherHash(site: Site, a: ServiceSpec, b: ServiceSpec, alloc: Allocations, facts: Facts, n: Node)
    requires forall x, y :: site.hash(x) == site.hash(y) ==> x == y
    requires BuildPlan(a, alloc, facts).Some? && BuildPlan(b, alloc, facts).Some?
    requires |a.attachments| == 2 && |b.attachments| == 2 && PortMoved(a, b, facts, n)
    ensures !HashesEqual(PlanHashes(site, BuildPlan(a, alloc, facts).value), PlanHashes(site, BuildPlan(b, alloc, facts).value))
    ensures PlanHashes(site, BuildPlan(a, alloc, facts).value) != PlanHashes(site, BuildPlan(b, alloc, facts).value)
  {
    BuiltNodes(a, alloc, facts, n);
    BuiltNodes(b, alloc, facts, n);
    OpsNamePort(a, alloc, facts, n);
    OpsNamePort(b, alloc, facts, n);
    OtherHash(site, BuildPlan(a, alloc, facts).value, BuildPlan(b, alloc, facts).value, n);
  }

  lemma OtherHash(site: Site, p: Plan, q: Plan, n: Node)
    requires forall x, y :: site.hash(x) == site.hash(y) ==> x == y
    requires n in p.nodes && n in q.nodes && p.nodes[n].ops != q.nodes[n].ops
    ensures !HashesEqual(PlanHashes(site, p), PlanHashes(site, q)) && PlanHashes(site, p) != PlanHashes(site, q)
  {
    assert n in PlanHashes(site, p) && n in PlanHashes(site, q);
    assert PlanHashes(site, p)[n] == site.hash(p.nodes[n].ops) && PlanHashes(site, q)[n] == site.hash(q.nodes[n].ops);
  }

  /** A service is activated, an attachment is moved to another port, and moved back
      before the update's record write is answered. The record then names the first
      spec beside the hashes of the second, so it is not faithful. */
  lemma PortEditBreaksRecord(facts: Facts, corr: Key -> CorrId, keyOf: CorrId -> Option<Key>, hash: seq<Op> -> int,
                             key: Key, a: ServiceSpec, b: ServiceSpec, n: Node, t: Turn) returns (moves: seq<Move>)
    requires Apart(corr, keyOf, hash) && Good(t) && |a.attachments| == 2 && |b.attachments| == 2 && PortMoved(a, b, facts, n)
    requires var ids := FirstIds(SiteOf(facts, corr, keyOf, hash), a, t.address);
      BuildPlan(a, ids, facts).Some? && BuildPlan(b, ids, facts).Some?
    ensures var w := Run(SiteOf(facts, corr, keyOf, hash), EmptyWorld, moves);
      && key in w.objects && w.objects[key].spec == a && w.objects[key].status.appliedSpec == Some(a)
      && !Faithful(SiteOf(facts, corr, keyOf, hash), w.objects[key].status)
  {
    var site := SiteOf(facts, corr, keyOf, hash);
    var ids := FirstIds(site, a, t.address);
    RendererIsOk(facts, corr, keyOf, hash);
    var first := ActivationSettles(site, key, a, t);
    MovedPortHasOtherHash(site, a, b, ids, facts, n);
    var w := Run(site, EmptyWorld, first);
    var second, w' := EditDuringUpdateBreaksRecord(site, w, key, b, a, t);
    RunConcat(site, EmptyWorld, first, second);
    moves := first + second;
  }

  /** A service is activated, its gateways or its alternate spine are edited, a check
      fails, the drift note is lost, and the repair goes through. The pass ends ready,
      and the next one writes. */
  lemma NeutralEditLosesNote(site: Site, facts: Facts, corr: Key -> CorrId, keyOf: CorrId -> Option<Key>, hash: seq<Op> -> int,
                             key: Key, a: ServiceSpec, b: ServiceSpec, t: Turn) returns (moves: seq<Move>, w': World)
    requires site == SiteOf(facts, corr, keyOf, hash) && Apart(corr, keyOf, hash) && Good(t) && SameReading(a, b)
    requires BuildPlan(a, FirstIds(site, a, t.address), facts).Some?
    ensures w' == Run(site, EmptyWorld, moves) && ReadyButStale(site, w', key)
  {
    RendererIsOk(facts, corr, keyOf, hash);
    var first := ActivationSettles(site, key, a, t);
    var w := Run(site, EmptyWorld, first);
    RunOk(site, first);
    NeutralEdit(a, b, FirstIds(site, a, t.address), facts);
    SameReadingRenders(site, w.objects[key], key, b);
    hide *;
    var second;
    second, w' := LostNoteLeavesStale(site, w, key, b, t);
    RunConcat(site, EmptyWorld, first, second);
    moves := first + second;
  }

  /** The edited spec still renders to the recorded hashes. */
  lemma SameReadingRenders(site: Site, obj: Service, key: Key, b: ServiceSpec)
    requires Settled(site, key, obj) && site.render(obj.spec, obj.status.allocations.value) == site.render(b, obj.status.allocations.value)
    ensures IsRender(site, b, obj.status.allocations.value, obj.status.configHashes)
  {
  }

  // ---- a site on which all of this happens -----------------------------------------------------

  const TwoPorts: PortMap := map["wan1" := "Ethernet8", "wan2" := "Ethernet12"]

  /** Two leaves, one spine, two access ports. */
  const TwoLeaves := Facts(
    TwoPorts, "",
    map["leaf01" := map["spine01" := "fc00:0:1::1"], "leaf02" := map["spine01" := "fc00:0:2::1"]],
    map["leaf01" := "fcbb:bbbb:1::/48", "leaf02" := "fcbb:bbbb:2::/48"],
    map[], (p: string) => Some(V4(192, 168, 7, 0, 24)))

  function OnPort(port: string, gateway: string): ServiceSpec {
    ServiceSpec("acme", "ip-vrf", "vpn",
                [Attachment("leaf01", port, [gateway]), Attachment("leaf02", "wan1", ["10.0.2.1/24"])], "spine01", "")
  }

  /** Both ports render under any ids with a positive id, its VRF and a prefix on each
      leaf, and the port on leaf01 tells them apart. */
  lemma TwoLeavesRender(alloc: Allocations, gateway: string)
    requires alloc.id > 0 && alloc.vrf == VrfName(alloc.id)
    requires forall n :: n in {"leaf01", "leaf02"} ==> n in alloc.prefixes && alloc.prefixes[n] != ""
    ensures BuildPlan(OnPort("wan1", gateway), alloc, TwoLeaves).Some? && BuildPlan(OnPort("wan2", gateway), alloc, TwoLeaves).Some?
    ensures PortMoved(OnPort("wan1", gateway), OnPort("wan2", gateway), TwoLeaves, "leaf01")
  {
    PortRenders("wan1", alloc, gateway);
    PortRenders("wan2", alloc, gateway);
    assert OnPort("wan1", gateway).attachments[0] in OnPort("wan1", gateway).attachments;
    assert OnPort("wan2", gateway).attachments[0] in OnPort("wan2", gateway).attachments;
  }

  lemma PortRenders(port: string, alloc: Allocations, gateway: string)
    requires port in TwoPorts && alloc.id > 0 && alloc.vrf == VrfName(alloc.id)
    requires forall n :: n in {"leaf01", "leaf02"} ==> n in alloc.prefixes && alloc.prefixes[n] != ""
    ensures BuildPlan(OnPort(port, gateway), alloc, TwoLeaves).Some?
  {
    var spec := OnPort(port, gateway);
    LocatorsGiveSids();
    assert Located(spec, TwoLeaves.locators);
    var derived := TwoLeaves.(sids := ServiceSids(spec, TwoLeaves.locators));
    assert spec.attachments[0] in spec.attachments && spec.attachments[1] in spec.attachments;
    LeafAttaches(spec, alloc, derived, "leaf01");
    LeafAttaches(spec, alloc, derived, "leaf02");
    LeafPins(spec, derived, "leaf01");
    LeafPins(spec, derived, "leaf02");
    BothRender(spec, alloc, derived);
  }

  lemma BothRender(spec: ServiceSpec, alloc: Allocations, facts: Facts)
    requires |spec.attachments| == 2 && spec.construct == "ip-vrf" && spec.signalling == "vpn"
    requires spec.attachments[0].node == "leaf01" && spec.attachments[1].node == "leaf02"
    requires facts == TwoLeaves.(sids := facts.sids) && alloc.id > 0 && alloc.vrf == VrfName(alloc.id)
    requires AttachOf(spec, alloc, facts, "leaf01").Some? && AttachOf(spec, alloc, facts, "leaf02").Some?
    requires PinLink(spec, facts, "leaf01").Some? && PinLink(spec, facts, "leaf02").Some?
    ensures Render(spec, alloc, facts).Some?
  {
    FramesThem(spec, alloc, facts);
    var frame := FrameOf(spec, alloc, facts).value;
    assert frame.first in {frame.first, frame.second} && frame.second in {frame.first, frame.second};
    RendersIn(spec, alloc, facts, frame);
  }

  lemma FramesThem(spec: ServiceSpec, alloc: Allocations, facts: Facts)
    requires |spec.attachments| == 2 && spec.construct == "ip-vrf" && spec.signalling == "vpn"
    requires spec.attachments[0].node == "leaf01" && spec.attachments[1].node == "leaf02"
    requires facts == TwoLeaves.(sids := facts.sids) && alloc.id > 0 && alloc.vrf == VrfName(alloc.id)
    ensures FrameOf(spec, alloc, facts).Some?
    ensures var frame := FrameOf(spec, alloc, facts).value; {frame.first, frame.second} == {"leaf01", "leaf02"}
  {
    assert "wan1" in TwoPorts;
  }

  lemma RendersIn(spec: ServiceSpec, alloc: Allocations, facts: Facts, frame: Frame)
    requires |spec.attachments| == 2 && FrameOf(spec, alloc, facts) == Some(frame)
    requires AttachOf(spec, alloc, facts, frame.first).Some? && AttachOf(spec, alloc, facts, frame.second).Some?
    requires PinLink(spec, facts, frame.first).Some? && PinLink(spec, facts, frame.second).Some?
    requires forall p :: HostAddr(facts, p, 2).Some?
    ensures Render(spec, alloc, facts).Some?
  {
    assert NodePlanOf(spec, alloc, facts, frame, frame.first).Some?;
    assert NodePlanOf(spec, alloc, facts, frame, frame.second).Some?;
  }

  lemma LocatorsGiveSids()
    ensures SidFromLocator("fcbb:bbbb:1::/48") == Some("fcbb:bbbb:1:11::/64")
    ensures SidFromLocator("fcbb:bbbb:2::/48") == Some("fcbb:bbbb:2:11::/64")
  {
    assert "fcbb:bbbb:1::/48"[11..] == "::/48" && "fcbb:bbbb:1::/48"[..11] == "fcbb:bbbb:1";
    assert "fcbb:bbbb:2::/48"[11..] == "::/48" && "fcbb:bbbb:2::/48"[..11] == "fcbb:bbbb:2";
    assert "fcbb:bbbb:1" + ":" + "11" + "::/64" == "fcbb:bbbb:1:11::/64";
    assert "fcbb:bbbb:2" + ":" + "11" + "::/64" == "fcbb:bbbb:2:11::/64";
  }

  lemma LeafAttaches(spec: ServiceSpec, alloc: Allocations, facts: Facts, n: Node)
    requires n in {"leaf01", "leaf02"} && |spec.attachments| == 2 && facts == TwoLeaves.(sids := facts.sids)
    requires spec.attachments[0].port in TwoPorts && spec.attachments[1].port in TwoPorts
    requires n in facts.sids && SidFromLocator(facts.locators[n]) == Some(facts.sids[n])
    requires n in alloc.prefixes && alloc.prefixes[n] != ""
    ensures AttachOf(spec, alloc, facts, n).Some?
  {
    SidGiven(facts, n);
    LeafFacts(facts, n, alloc.prefixes[n]);
    hide HasSuffix, TrimSuffix, SidFromLocator, HostAddr, Port;
    PortKnown(spec.attachments[0].port);
    PortKnown(spec.attachments[1].port);
  }

  lemma PortKnown(port: string)
    requires port in TwoPorts
    ensures Port(TwoPorts, port).Some?
  {
  }

  lemma LeafFacts(facts: Facts, n: Node, prefix: string)
    requires n in {"leaf01", "leaf02"} && facts == TwoLeaves.(sids := facts.sids)
    ensures facts.ports == TwoPorts && n in facts.locators && facts.locators[n] != "" && HostAddr(facts, prefix, 1).Some?
  {
  }

  lemma SidGiven(facts: Facts, n: Node)
    requires n in {"leaf01", "leaf02"} && facts == TwoLeaves.(sids := facts.sids)
    requires n in facts.sids && SidFromLocator(facts.locators[n]) == Some(facts.sids[n])
    ensures facts.sids[n] != "" && HasSuffix(facts.sids[n], "/64")
  {
    LocatorsGiveSids();
    SidsAreLong();
  }

  lemma SidsAreLong()
    ensures HasSuffix("fcbb:bbbb:1:11::/64", "/64") && HasSuffix("fcbb:bbbb:2:11::/64", "/64")
  {
    assert "fcbb:bbbb:1:11::/64"[16..] == "/64" && "fcbb:bbbb:2:11::/64"[16..] == "/64";
  }

  lemma LeafPins(spec: ServiceSpec, facts: Facts, n: Node)
    requires n in {"leaf01", "leaf02"} && facts == TwoLeaves.(sids := facts.sids) && spec.preferredSpine == "spine01"
    ensures PinLink(spec, facts, n).Some?
  {
    assert "spine01" in facts.spineLinks[n];
  }

  lemma PrefixesOfTwo(atts: seq<Attachment>, addr: string)
    requires |atts| == 2
    ensures var prefixes := Prefixes(OrderedAttachments(atts), map[], addr);
      forall a :: a in atts ==> a.node in prefixes && prefixes[a.node] == addr
  {
    var x, y := atts[0], atts[1];
    assert atts[1..] == [y] && [y][1..] == [];
    var ordered := OrderedAttachments(atts);
    assert OrderedAttachments([y]) == [y];
    assert ordered == if Le(x.node, y.node) then [x] + [y] else [y] + InsertByNode(x, []) by {
      assert ordered == InsertByNode(x, [y]);
      assert [y][1..] == [];
    }
    assert |ordered| == 2 && ordered[1..] == [ordered[1]] && ordered[1..][1..] == [];
    assert Prefixes(ordered, map[], addr) == Prefixes(ordered[1..], map[ordered[0].node := addr], addr);
  }

  /** On the two leaves, with any correlation ids, the port edit breaks the record. */
  lemma RaceHappens(corr: Key -> CorrId, keyOf: CorrId -> Option<Key>, hash: seq<Op> -> int, key: Key, t: Turn) returns (moves: seq<Move>)
    requires Apart(corr, keyOf, hash) && Good(t) && t.address != ""
    ensures var site := SiteOf(TwoLeaves, corr, keyOf, hash); var w := Run(site, EmptyWorld, moves);
      key in w.objects && !Faithful(site, w.objects[key].status)
  {
    var a, b := OnPort("wan1", Gateway), OnPort("wan2", Gateway);
    TwoLeavesQualify(SiteOf(TwoLeaves, corr, keyOf, hash), t.address);
    moves := PortEditBreaksRecord(TwoLeaves, corr, keyOf, hash, key, a, b, "leaf01", t);
  }

  const Gateway := "10.0.1.1/24"

  /** The two ports render under the ids of a first pass, and differ. */
  lemma TwoLeavesQualify(site: Site, addr: string)
    requires site.firstId == 1 && addr != ""
    ensures var ids, a, b := FirstIds(site, OnPort("wan1", Gateway), addr), OnPort("wan1", Gateway), OnPort("wan2", Gateway);
      BuildPlan(a, ids, TwoLeaves).Some? && BuildPlan(b, ids, TwoLeaves).Some? && PortMoved(a, b, TwoLeaves, "leaf01")
  {
    var a := OnPort("wan1", Gateway);
    PrefixesOfTwo(a.attachments, addr);
    assert a.attachments[0] in a.attachments && a.attachments[1] in a.attachments;
    TwoLeavesRender(FirstIds(site, a, addr), Gateway);
  }

  lemma OtherGateway(port: string, g: string, h: string)
    ensures SameReading(OnPort(port, g), OnPort(port, h))
  {
    var a, b := OnPort(port, g), OnPort(port, h);
    assert |a.attachments| == 2 && |b.attachments| == 2;
    assert a.attachments[0].node == b.attachments[0].node && a.attachments[0].port == b.attachments[0].port;
    assert a.attachments[1] == b.attachments[1];
  }

  /** On the two leaves, a gateway edit whose pass loses its drift note leaves the
      service Ready over a stored status that the next pass writes again. */
  lemma LostNoteHappens(corr: Key -> CorrId, keyOf: CorrId -> Option<Key>, hash: seq<Op> -> int, key: Key, t: Turn)
      returns (moves: seq<Move>)
    requires Apart(corr, keyOf, hash) && Good(t) && t.address != ""
    ensures var site := SiteOf(TwoLeaves, corr, keyOf, hash); ReadyButStale(site, Run(site, EmptyWorld, moves), key)
  {
    var site := SiteOf(TwoLeaves, corr, keyOf, hash);
    var a, b := OnPort("wan1", Gateway), OnPort("wan1", "10.0.9.1/24");
    TwoLeavesQualify(site, t.address);
    OtherGateway("wan1", Gateway, "10.0.9.1/24");
    var w';
    moves, w' := NeutralEditLosesNote(site, TwoLeaves, corr, keyOf, hash, key, a, b, t);
  }
}
