/** The renderer in its place: the service SIDs derived from the bootstrap
    locators, the plan a controller builds, and the site the pass machine runs
    on when it renders with it. */
module Srv6Site {
  import opened Text
  import opened ServiceObjects
  import opened Devices
  import opened PassMachine
  import PassInvariant
  import opened Srv6Render
  import opened Srv6Laws
  import opened Fabric

  const SidFunction := "11"

  function SidFromLocator(locator: string): Option<string> {
    if HasSuffix(locator, "::/48") then Some(TrimSuffix(locator, "::/48") + ":" + SidFunction + "::/64") else None
  }

  /** serviceSIDs: every attachment node has a /48 locator, or there is no answer. */
  predicate Located(spec: ServiceSpec, locators: map<Node, string>) {
    forall a :: a in spec.attachments ==> a.node in locators && SidFromLocator(locators[a.node]).Some?
  }

  function ServiceSids(spec: ServiceSpec, locators: map<Node, string>): (sids: map<Node, string>)
    requires Located(spec, locators)
    ensures forall a :: a in spec.attachments ==> a.node in sids && Some(sids[a.node]) == SidFromLocator(locators[a.node])
  {
    map n | n in (set a | a in spec.attachments :: a.node) :: SidFromLocator(locators[n]).value
  }

  /** BuildPlan. */
  function BuildPlan(spec: ServiceSpec, alloc: Allocations, facts: Facts): Option<Plan> {
    if Located(spec, facts.locators) then Render(spec, alloc, facts.(sids := ServiceSids(spec, facts.locators))) else None
  }

  /** steeredPathView's guard. */
  predicate Steerable(spec: ServiceSpec, order: seq<Node>, facts: Facts) {
    && spec.preferredSpine != "" && |order| == 2
    && order[1] in facts.locators && SidFromLocator(facts.locators[order[1]]).Some?
    && order[0] in facts.spineLinks && facts.spineLinks[order[0]] != map[]
  }

  /** The site of a controller with these facts. */
  function SiteOf(facts: Facts, corr: Key -> CorrId, keyOf: CorrId -> Option<Key>, hash: seq<Op> -> int): Site {
    Site(corr, keyOf, spec => Located(spec, facts.locators), (spec, alloc) => BuildPlan(spec, alloc, facts),
         (spec, order) => Steerable(spec, order, facts), hash, 1, 999)
  }

  lemma BuiltPlanShape(spec: ServiceSpec, alloc: Allocations, facts: Facts)
    requires BuildPlan(spec, alloc, facts).Some?
    ensures BuildPlan(spec, alloc, facts).value.nodes != map[]
    ensures forall a :: a in spec.attachments ==> a.node in alloc.prefixes && alloc.prefixes[a.node] != ""
  {
    RenderShape(spec, alloc, facts.(sids := ServiceSids(spec, facts.locators)));
  }

  lemma RenderShape(spec: ServiceSpec, alloc: Allocations, facts: Facts)
    requires Render(spec, alloc, facts).Some?
    ensures Render(spec, alloc, facts).value.nodes != map[]
    ensures forall a :: a in spec.attachments ==> a.node in alloc.prefixes && alloc.prefixes[a.node] != ""
  {
    PlanNodes(spec, alloc, facts);
    hide Render;
    var nodes := Render(spec, alloc, facts).value.nodes;
    var frame := FrameOf(spec, alloc, facts).value;
    assert nodes.Keys == {frame.first, frame.second};
    forall a | a in spec.attachments ensures a.node in alloc.prefixes && alloc.prefixes[a.node] != "" {
      assert a == spec.attachments[0] || a == spec.attachments[1];
      assert a.node in {frame.first, frame.second};
      NodeHasPrefix(spec, alloc, facts, a.node);
    }
  }

  lemma NodeHasPrefix(spec: ServiceSpec, alloc: Allocations, facts: Facts, n: Node)
    requires Render(spec, alloc, facts).Some? && n in Render(spec, alloc, facts).value.nodes
    ensures n in alloc.prefixes && alloc.prefixes[n] != ""
  {
    var frame, self, peer, link, addr := PartsOfPlan(spec, alloc, facts, n);
    AttachHasPrefix(spec, alloc, facts, n);
  }

  lemma AttachHasPrefix(spec: ServiceSpec, alloc: Allocations, facts: Facts, n: Node)
    requires |spec.attachments| == 2 && AttachOf(spec, alloc, facts, n).Some?
    ensures n in alloc.prefixes && alloc.prefixes[n] != ""
  {
  }

  /** This renderer is one the pass theorems ask for. */
  lemma RendererIsOk(facts: Facts, corr: Key -> CorrId, keyOf: CorrId -> Option<Key>, hash: seq<Op> -> int)
    ensures PassInvariant.RenderOk(SiteOf(facts, corr, keyOf, hash))
  {
    var site := SiteOf(facts, corr, keyOf, hash);
    forall spec, alloc | site.render(spec, alloc).Some?
      ensures site.located(spec) && site.render(spec, alloc).value.nodes != map[]
      ensures forall a :: a in spec.attachments ==> a.node in alloc.prefixes && alloc.prefixes[a.node] != ""
    {
      BuiltPlanShape(spec, alloc, facts);
    }
  }

  /** Every plan the controller builds is covered, so an update between two of
      them is exact on every node. */
  lemma BuiltUpdateIsExact(applied: ServiceSpec, wanted: ServiceSpec, alloc: Allocations, facts: Facts, n: Node, d: Device, c: Cell)
    requires BuildPlan(applied, alloc, facts).Some? && BuildPlan(wanted, alloc, facts).Some?
    ensures var prev, next := BuildPlan(applied, alloc, facts).value, BuildPlan(wanted, alloc, facts).value;
      Makes(OpsOn(prev, n), c) || Makes(OpsOn(next, n), c) ==> Look(Updated(prev, next, n, d), c) == EntryLeft(OpsOn(next, n), c)
  {
    BuiltPlanIsCovered(applied, alloc, facts);
    UpdateIsExact(BuildPlan(applied, alloc, facts).value, BuildPlan(wanted, alloc, facts).value, n, d, c);
  }

  lemma BuiltPlanIsCovered(spec: ServiceSpec, alloc: Allocations, facts: Facts)
    requires BuildPlan(spec, alloc, facts).Some?
    ensures PlanCovered(BuildPlan(spec, alloc, facts).value)
  {
    forall n | n in BuildPlan(spec, alloc, facts).value.nodes ensures Covered(BuildPlan(spec, alloc, facts).value.nodes[n]) {
      RenderedPlansAreCovered(spec, alloc, facts.(sids := ServiceSids(spec, facts.locators)), n);
    }
  }

  /** No rollback of a built plan holds an empty op, so the executor never turns
      one down on its own, and Driver.ApplyUpdate's promise holds of built plans. */
  lemma BuiltPlanIsWorkable(spec: ServiceSpec, alloc: Allocations, facts: Facts)
    requires BuildPlan(spec, alloc, facts).Some?
    ensures Workable(BuildPlan(spec, alloc, facts).value)
  {
    var plan := BuildPlan(spec, alloc, facts).value;
    forall n, i | n in plan.nodes && 0 <= i < |plan.nodes[n].rollback| ensures !Empty(plan.nodes[n].rollback[i]) {
      var frame, self, peer, link, addr := PartsOfPlan(spec, alloc, facts.(sids := ServiceSids(spec, facts.locators)), n);
      RollbackIsWorkable(spec, frame, n, self, peer, i);
    }
  }

  lemma RollbackIsWorkable(spec: ServiceSpec, frame: Frame, n: Node, self: Attach, peer: Attach, i: nat)
    requires i < |NodeRollback(spec, frame, n, self, peer)|
    ensures !Empty(NodeRollback(spec, frame, n, self, peer)[i])
  {
    var ops := NodeRollback(spec, frame, n, self, peer);
    assert |ops| == 5 && ops[0].Shell? && |ops[0].cmds| >= 3;
  }

  lemma SidShapes(locator: string, other: string)
    requires SidFromLocator(locator).Some? && SidFromLocator(other).Some?
    ensures var sid, fn := SidFromLocator(locator).value, TrimSuffix(SidFromLocator(other).value, "/64");
      sid != locator && sid != other && sid != fn && fn != locator && fn != other
  {
    var sid, osid := SidFromLocator(locator).value, SidFromLocator(other).value;
    assert sid[|sid| - 1] == '4' && locator[|locator| - 1] == '8' && other[|other| - 1] == '8' by {
      assert locator[|locator| - 5..] == "::/48" && other[|other| - 5..] == "::/48";
      assert locator[|locator| - 1] == locator[|locator| - 5..][4] && other[|other| - 1] == other[|other| - 5..][4];
    }
    assert osid[|osid| - 3..] == "/64";
    var fn := TrimSuffix(osid, "/64");
    assert fn == TrimSuffix(other, "::/48") + ":" + SidFunction + "::";
    assert fn[|fn| - 1] == ':';
  }

  /** Running the ops of any built plan on any device makes every check of the
      plan true there. */
  lemma BuiltOpsEstablishChecks(spec: ServiceSpec, alloc: Allocations, facts: Facts, n: Node, d: Device, check: Check)
    requires BuildPlan(spec, alloc, facts).Some? && n in BuildPlan(spec, alloc, facts).value.nodes
    requires check in BuildPlan(spec, alloc, facts).value.nodes[n].checks
    ensures Holds(DoAll(d, Atoms(BuildPlan(spec, alloc, facts).value.nodes[n].ops)), check)
  {
    var derived := facts.(sids := ServiceSids(spec, facts.locators));
    var frame, self, peer, link, addr := PartsOfPlan(spec, alloc, derived, n);
    BuiltPartsAreSeparate(spec, alloc, facts, frame, n, self, peer, link, addr, BuildPlan(spec, alloc, facts).value.nodes[n]);
    OpsEstablishChecks(spec, frame, n, self, peer, link, addr, d, check);
  }

  lemma BuiltPartsAreSeparate(spec: ServiceSpec, alloc: Allocations, facts: Facts, frame: Frame, n: Node,
                              self: Attach, peer: Attach, link: string, addr: string, np: NodePlan)
    requires Located(spec, facts.locators)
    requires MadeOf(spec, alloc, facts.(sids := ServiceSids(spec, facts.locators)), frame, n, self, peer, link, addr, np)
    ensures Separate(PartsOf(spec, frame, n, self, peer, link, addr))
  {
    var peerNode := if n == frame.first then frame.second else frame.first;
    var derived := facts.(sids := ServiceSids(spec, facts.locators));
    assert n in {spec.attachments[0].node, spec.attachments[1].node} && peerNode in {spec.attachments[0].node, spec.attachments[1].node};
    AttachIds(spec, alloc, derived, n);
    AttachIds(spec, alloc, derived, peerNode);
    NodeLocated(spec, facts, n);
    NodeLocated(spec, facts, peerNode);
    SidShapes(facts.locators[n], facts.locators[peerNode]);
    SidShapes(facts.locators[peerNode], facts.locators[peerNode]);
  }

  lemma AttachIds(spec: ServiceSpec, alloc: Allocations, facts: Facts, n: Node)
    requires |spec.attachments| == 2 && AttachOf(spec, alloc, facts, n).Some?
    ensures var a := AttachOf(spec, alloc, facts, n).value;
      && n in facts.sids && n in facts.locators
      && a.sid == facts.sids[n] && a.sidFn == TrimSuffix(facts.sids[n], "/64") && a.loc == facts.locators[n]
  {
  }

  lemma NodeLocated(spec: ServiceSpec, facts: Facts, n: Node)
    requires |spec.attachments| == 2 && n in {spec.attachments[0].node, spec.attachments[1].node} && Located(spec, facts.locators)
    ensures n in facts.locators && Some(ServiceSids(spec, facts.locators)[n]) == SidFromLocator(facts.locators[n])
  {
    assert spec.attachments[0] in spec.attachments && spec.attachments[1] in spec.attachments;
  }

  // ---- what the renderer reads -----------------------------------------------------------

  /** Two specs that say the same of construct, signalling, preferred spine, nodes
      and ports. */
  predicate SameReading(a: ServiceSpec, b: ServiceSpec) {
    && a.construct == b.construct && a.signalling == b.signalling && a.preferredSpine == b.preferredSpine
    && |a.attachments| == |b.attachments|
    && forall i :: 0 <= i < |a.attachments| ==>
         a.attachments[i].node == b.attachments[i].node && a.attachments[i].port == b.attachments[i].port
  }

  /** Gateways, the alternate spine and the tenant are not read: such an edit leaves
      every plan as it is. */
  lemma NeutralEdit(a: ServiceSpec, b: ServiceSpec, alloc: Allocations, facts: Facts)
    requires SameReading(a, b)
    ensures BuildPlan(a, alloc, facts) == BuildPlan(b, alloc, facts)
  {
    SameNodes(a, b);
    assert Located(a, facts.locators) <==> Located(b, facts.locators);
    if Located(a, facts.locators) {
      var derived := facts.(sids := ServiceSids(a, facts.locators));
      assert ServiceSids(a, facts.locators) == ServiceSids(b, facts.locators);
      NeutralRender(a, b, alloc, derived);
    }
  }

  lemma SameNodes(a: ServiceSpec, b: ServiceSpec)
    requires SameReading(a, b)
    ensures (set x | x in a.attachments :: x.node) == (set x | x in b.attachments :: x.node)
  {
    forall x | x in a.attachments ensures exists y :: y in b.attachments && y.node == x.node {
      var i :| 0 <= i < |a.attachments| && a.attachments[i] == x;
      assert b.attachments[i] in b.attachments;
    }
    forall x | x in b.attachments ensures exists y :: y in a.attachments && y.node == x.node {
      var i :| 0 <= i < |b.attachments| && b.attachments[i] == x;
      assert a.attachments[i] in a.attachments;
    }
  }

  lemma NeutralRender(a: ServiceSpec, b: ServiceSpec, alloc: Allocations, facts: Facts)
    requires SameReading(a, b)
    ensures Render(a, alloc, facts) == Render(b, alloc, facts)
  {
    assert FrameOf(a, alloc, facts) == FrameOf(b, alloc, facts);
    if FrameOf(a, alloc, facts).Some? {
      var frame := FrameOf(a, alloc, facts).value;
      NeutralNode(a, b, alloc, facts, frame, frame.first);
      NeutralNode(a, b, alloc, facts, frame, frame.second);
    }
  }

  lemma NeutralNode(a: ServiceSpec, b: ServiceSpec, alloc: Allocations, facts: Facts, frame: Frame, n: Node)
    requires SameReading(a, b) && |a.attachments| == 2
    ensures NodePlanOf(a, alloc, facts, frame, n) == NodePlanOf(b, alloc, facts, frame, n)
  {
    NeutralAttach(a, b, alloc, facts, n);
    NeutralAttach(a, b, alloc, facts, if n == frame.first then frame.second else frame.first);
  }

  lemma NeutralAttach(a: ServiceSpec, b: ServiceSpec, alloc: Allocations, facts: Facts, n: Node)
    requires SameReading(a, b) && |a.attachments| == 2
    ensures AttachOf(a, alloc, facts, n) == AttachOf(b, alloc, facts, n)
  {
  }
}
