/** What a delete leaves on the nodes of the applied render. Deleting rolls back
    what the current spec renders to, if it renders at all, on the nodes of that
    render; the identifiers are the recorded ones. */
module Srv6Delete {
  import opened Text
  import opened ServiceObjects
  import opened SiteNames
  import opened Devices
  import opened PassMachine
  import opened Srv6Render
  import opened Srv6Laws
  import opened Srv6Site
  import opened Fabric

  // ---- a spec, seen from one of its nodes --------------------------------------------------

  predicate Attached(spec: ServiceSpec, n: Node) {
    exists a :: a in spec.attachments && a.node == n
  }

  /** The logical port on node n, and the node at the other end. */
  function PortOn(spec: ServiceSpec, n: Node): string
    requires |spec.attachments| == 2
  {
    if spec.attachments[0].node == n then spec.attachments[0].port else spec.attachments[1].port
  }

  function PeerOf(spec: ServiceSpec, n: Node): Node
    requires |spec.attachments| == 2
  {
    if spec.attachments[0].node == n then spec.attachments[1].node else spec.attachments[0].node
  }

  /** The node that carries the preferred pin. */
  predicate PinsAt(spec: ServiceSpec, n: Node)
    requires |spec.attachments| == 2
  {
    spec.preferredSpine != "" && Le(n, PeerOf(spec, n))
  }

  /** What a node's parts say of the spec. */
  ghost predicate SeenFrom(spec: ServiceSpec, alloc: Allocations, facts: Facts, n: Node, p: Parts)
    requires |spec.attachments| == 2
  {
    var peer := PeerOf(spec, n);
    && n in facts.locators && peer in facts.locators && n in alloc.prefixes && peer in alloc.prefixes
    && p.vrf == VrfName(alloc.id)
    && Some(p.self.port) == Port(facts.ports, PortOn(spec, n))
    && p.att == n + "/" + PortOn(spec, n)
    && Some(p.self.gw) == HostAddr(facts, alloc.prefixes[n], 1)
    && Some(p.addr) == HostAddr(facts, alloc.prefixes[n], 2)
    && Some(p.self.sid) == SidFromLocator(facts.locators[n])
    && p.peer.client == alloc.prefixes[peer]
    && p.peer.loc == facts.locators[peer]
    && SidFromLocator(p.peer.loc).Some? && p.peer.sidFn == TrimSuffix(SidFromLocator(p.peer.loc).value, "/64")
    && (p.steered <==> PinsAt(spec, n))
  }

  lemma BuiltNodes(spec: ServiceSpec, alloc: Allocations, facts: Facts, n: Node)
    requires BuildPlan(spec, alloc, facts).Some?
    ensures |spec.attachments| == 2
    ensures n in BuildPlan(spec, alloc, facts).value.nodes <==> Attached(spec, n)
  {
    var derived := facts.(sids := ServiceSids(spec, facts.locators));
    PlanNodes(spec, alloc, derived);
    FrameNodes(spec, alloc, derived);
    AttachedIs(spec, n);
  }

  lemma FrameNodes(spec: ServiceSpec, alloc: Allocations, facts: Facts)
    requires FrameOf(spec, alloc, facts).Some?
    ensures |spec.attachments| == 2
    ensures var frame := FrameOf(spec, alloc, facts).value;
      {frame.first, frame.second} == {spec.attachments[0].node, spec.attachments[1].node}
  {
  }

  lemma AttachedIs(spec: ServiceSpec, n: Node)
    requires |spec.attachments| == 2
    ensures Attached(spec, n) <==> n in {spec.attachments[0].node, spec.attachments[1].node}
  {
    assert spec.attachments[0] in spec.attachments && spec.attachments[1] in spec.attachments;
  }

  /** The parts a node of a built plan is made of. */
  lemma BuiltParts(spec: ServiceSpec, alloc: Allocations, facts: Facts, n: Node) returns (p: Parts)
    requires BuildPlan(spec, alloc, facts).Some? && n in BuildPlan(spec, alloc, facts).value.nodes
    ensures |spec.attachments| == 2 && SeenFrom(spec, alloc, facts, n, p)
    ensures forall c :: Makes(BuildPlan(spec, alloc, facts).value.nodes[n].ops, c) <==> Owns(p, c)
    ensures forall c :: Verdicts(Atoms(BuildPlan(spec, alloc, facts).value.nodes[n].ops), c).Left? <==> Owns(p, c) || ClientCell(p, c)
    ensures forall c :: Verdicts(Atoms(BuildPlan(spec, alloc, facts).value.nodes[n].rollback), c) == if Clears(p, c) then Left(None) else Untouched
  {
    var derived := facts.(sids := ServiceSids(spec, facts.locators));
    var frame, self, peer, link, addr := PartsOfPlan(spec, alloc, derived, n);
    p := PartsOf(spec, frame, n, self, peer, link, addr);
    PartsSeen(spec, alloc, facts, frame, n, self, peer, link, addr, BuildPlan(spec, alloc, facts).value.nodes[n]);
    PartVerdicts(spec, frame, n, self, peer, link, addr);
    hide Owns, Clears, ClientCell, Makes, Verdicts, Atoms, SeenFrom;
  }

  lemma PartVerdicts(spec: ServiceSpec, frame: Frame, n: Node, self: Attach, peer: Attach, link: string, addr: string)
    ensures var p := PartsOf(spec, frame, n, self, peer, link, addr); var ops := NodeOps(spec, frame, n, self, peer, link, addr);
      && (forall c :: Makes(ops, c) <==> Owns(p, c))
      && (forall c :: Verdicts(Atoms(ops), c).Left? <==> Owns(p, c) || ClientCell(p, c))
    ensures var p := PartsOf(spec, frame, n, self, peer, link, addr);
      forall c :: Verdicts(Atoms(NodeRollback(spec, frame, n, self, peer)), c) == if Clears(p, c) then Left(None) else Untouched
  {
    hide Owns, Clears, ClientCell, Verdicts, Atoms;
    var p, ops := PartsOf(spec, frame, n, self, peer, link, addr), NodeOps(spec, frame, n, self, peer, link, addr);
    forall c ensures Makes(ops, c) <==> Owns(p, c) ensures Verdicts(Atoms(ops), c).Left? <==> Owns(p, c) || ClientCell(p, c) {
      OpsLeaveOwned(spec, frame, n, self, peer, link, addr, c);
    }
    forall c ensures Verdicts(Atoms(NodeRollback(spec, frame, n, self, peer)), c) == if Clears(p, c) then Left(None) else Untouched {
      RollbackClears(spec, frame, n, self, peer, link, addr, c);
    }
  }

  lemma PartsSeen(spec: ServiceSpec, alloc: Allocations, facts: Facts, frame: Frame, n: Node,
                  self: Attach, peer: Attach, link: string, addr: string, np: NodePlan)
    requires Located(spec, facts.locators)
    requires MadeOf(spec, alloc, facts.(sids := ServiceSids(spec, facts.locators)), frame, n, self, peer, link, addr, np)
    ensures SeenFrom(spec, alloc, facts, n, PartsOf(spec, frame, n, self, peer, link, addr))
  {
    var derived := facts.(sids := ServiceSids(spec, facts.locators));
    var other := PeerOf(spec, n);
    FramePeer(spec, alloc, derived, frame, n);
    NodeLocated(spec, facts, n);
    NodeLocated(spec, facts, other);
    AttachSeen(spec, alloc, derived, n);
    AttachSeen(spec, alloc, derived, other);
  }

  lemma FramePeer(spec: ServiceSpec, alloc: Allocations, facts: Facts, frame: Frame, n: Node)
    requires |spec.attachments| == 2 && FrameOf(spec, alloc, facts) == Some(frame) && n in {frame.first, frame.second}
    ensures PeerOf(spec, n) == if n == frame.first then frame.second else frame.first
    ensures frame.vrf == VrfName(alloc.id) && n in {spec.attachments[0].node, spec.attachments[1].node}
    ensures n == frame.first <==> Le(n, PeerOf(spec, n))
  {
    if Le(frame.second, frame.first) { LeAntisymmetric(frame.first, frame.second); }
  }

  lemma AttachSeen(spec: ServiceSpec, alloc: Allocations, facts: Facts, n: Node)
    requires |spec.attachments| == 2 && AttachOf(spec, alloc, facts, n).Some?
    ensures var a := AttachOf(spec, alloc, facts, n).value;
      && n in facts.sids && n in facts.locators && n in alloc.prefixes
      && Some(a.port) == Port(facts.ports, PortOn(spec, n)) && a.logic == PortOn(spec, n)
      && a.sid == facts.sids[n] && a.sidFn == TrimSuffix(facts.sids[n], "/64") && a.loc == facts.locators[n]
      && a.client == alloc.prefixes[n] && Some(a.gw) == HostAddr(facts, alloc.prefixes[n], 1)
  {
  }

  // ---- what a delete clears -----------------------------------------------------------------

  /** The device of node n after a delete of the current spec under these
      identifiers, every rollback call gone through. */
  function Deleted(current: ServiceSpec, alloc: Allocations, facts: Facts, n: Node, d: Device): Device {
    match BuildPlan(current, alloc, facts)
    case Some(plan) => if n in plan.nodes then DoAll(d, Atoms(plan.nodes[n].rollback)) else d
    case None => d
  }

  /** The plan the finalizer rolls back is that of the current spec. */
  lemma FinalizerRendersCurrent(facts: Facts, corr: Key -> CorrId, keyOf: CorrId -> Option<Key>, hash: seq<Op> -> int, svc: Service)
    requires svc.status.allocations.Some? && svc.status.allocations.value.id > 0
    ensures FinalPlan(SiteOf(facts, corr, keyOf, hash), svc) == BuildPlan(svc.spec, svc.status.allocations.value, facts)
  {
  }

  /** The facts a comparison of the two specs on node n reads. */
  predicate Nameable(applied: ServiceSpec, current: ServiceSpec, alloc: Allocations, facts: Facts, n: Node) {
    && |applied.attachments| == 2 && |current.attachments| == 2 && n in facts.locators
    && PeerOf(applied, n) in facts.locators && PeerOf(applied, n) in alloc.prefixes
    && PeerOf(current, n) in facts.locators && PeerOf(current, n) in alloc.prefixes
  }

  /** What the current spec still has in common with the applied one on node n, as
      far as this cell of the applied render goes. */
  predicate StillNamed(applied: ServiceSpec, current: ServiceSpec, alloc: Allocations, facts: Facts, n: Node, c: Cell)
    requires Nameable(applied, current, alloc, facts, n)
  {
    var samePeer := facts.locators[PeerOf(current, n)] == facts.locators[PeerOf(applied, n)];
    match c
    case RowCell(VrfRow(_)) => true
    case RowCell(_) => Port(facts.ports, PortOn(current, n)) == Port(facts.ports, PortOn(applied, n))
    case VrfRoute(_, _) => alloc.prefixes[PeerOf(current, n)] == alloc.prefixes[PeerOf(applied, n)]
    case MainRoute(dst) =>
      if Some(dst) == SidFromLocator(facts.locators[n]) then true
      else if dst == facts.locators[PeerOf(applied, n)] then samePeer
      else samePeer && PinsAt(current, n)
    case _ => PortOn(current, n) == PortOn(applied, n)
  }

  /** A delete clears a cell of the applied render exactly when the current spec
      still renders, is still attached to the node, and still names what the cell
      was made from: the port, the peer, the pin. */
  lemma DeleteClearsExactly(applied: ServiceSpec, current: ServiceSpec, alloc: Allocations, facts: Facts, n: Node, d: Device, c: Cell)
    requires BuildPlan(applied, alloc, facts).Some? && n in BuildPlan(applied, alloc, facts).value.nodes
    requires Makes(BuildPlan(applied, alloc, facts).value.nodes[n].ops, c)
    ensures |applied.attachments| == 2
    ensures var before := DoAll(d, Atoms(BuildPlan(applied, alloc, facts).value.nodes[n].ops));
      && c in before
      && (c !in Deleted(current, alloc, facts, n, before) <==>
            && BuildPlan(current, alloc, facts).Some? && Attached(current, n)
            && Nameable(applied, current, alloc, facts, n) && StillNamed(applied, current, alloc, facts, n, c))
  {
    var before := DoAll(d, Atoms(BuildPlan(applied, alloc, facts).value.nodes[n].ops));
    MadeIsHeld(d, BuildPlan(applied, alloc, facts).value.nodes[n].ops, c);
    hide BuildPlan, Attached, Nameable, StillNamed, SeenFrom, Owns, Clears, ClientCell, DoAll, Atoms, Verdicts, Makes;
    var p := BuiltParts(applied, alloc, facts, n);
    if BuildPlan(current, alloc, facts).Some? {
      BuiltNodes(current, alloc, facts, n);
      if Attached(current, n) {
        var q := BuiltParts(current, alloc, facts, n);
        LastWriterWins(before, Atoms(BuildPlan(current, alloc, facts).value.nodes[n].rollback), c);
        ClearedCells(applied, current, alloc, facts, n, p, q, c);
      }
    }
  }

  lemma MadeIsHeld(d: Device, ops: seq<Op>, c: Cell)
    requires Makes(ops, c)
    ensures c in DoAll(d, Atoms(ops))
  {
    LastWriterWins(d, Atoms(ops), c);
  }

  lemma ClearedCells(applied: ServiceSpec, current: ServiceSpec, alloc: Allocations, facts: Facts, n: Node, p: Parts, q: Parts, c: Cell)
    requires |applied.attachments| == 2 && |current.attachments| == 2
    requires SeenFrom(applied, alloc, facts, n, p) && SeenFrom(current, alloc, facts, n, q) && Owns(p, c)
    ensures Nameable(applied, current, alloc, facts, n)
    ensures Clears(q, c) <==> StillNamed(applied, current, alloc, facts, n, c)
  {
    if c.MainRoute? { ClearedRoutes(applied, current, alloc, facts, n, p, q, c.dst); }
    else if c.ClientAddr? || c.ClientDefault? { SameAttachment(n, PortOn(applied, n), PortOn(current, n)); }
  }

  lemma SameAttachment(n: Node, a: string, b: string)
    ensures n + "/" + a == n + "/" + b <==> a == b
  {
    assert (n + "/" + a)[|n| + 1..] == a && (n + "/" + b)[|n| + 1..] == b;
  }

  /** Routes are told apart by the shape of their destination. */
  lemma ClearedRoutes(applied: ServiceSpec, current: ServiceSpec, alloc: Allocations, facts: Facts, n: Node, p: Parts, q: Parts, dst: string)
    requires |applied.attachments| == 2 && |current.attachments| == 2
    requires SeenFrom(applied, alloc, facts, n, p) && SeenFrom(current, alloc, facts, n, q) && Owns(p, MainRoute(dst))
    ensures Nameable(applied, current, alloc, facts, n)
    ensures Clears(q, MainRoute(dst)) <==> StillNamed(applied, current, alloc, facts, n, MainRoute(dst))
  {
    SidShapes(facts.locators[n], p.peer.loc);
    SidShapes(p.peer.loc, p.peer.loc);
    SidShapes(p.peer.loc, q.peer.loc);
    SidShapes(q.peer.loc, p.peer.loc);
    SidShapes(facts.locators[n], q.peer.loc);
    SameFunction(p.peer.loc, q.peer.loc);
  }

  lemma SameFunction(a: string, b: string)
    requires SidFromLocator(a).Some? && SidFromLocator(b).Some?
    ensures TrimSuffix(SidFromLocator(a).value, "/64") == TrimSuffix(SidFromLocator(b).value, "/64") <==> a == b
  {
    var x, y := TrimSuffix(a, "::/48"), TrimSuffix(b, "::/48");
    assert a == x + "::/48" && b == y + "::/48";
    SidTail(x);
    SidTail(y);
    var u, v := x + ":11::", y + ":11::";
    if u == v { assert u[..|u| - 5] == x && v[..|v| - 5] == y; }
  }

  lemma SidTail(x: string)
    ensures TrimSuffix(x + ":" + SidFunction + "::/64", "/64") == x + ":11::"
  {
    var s := x + ":" + SidFunction + "::/64";
    assert s[|s| - 3..] == "/64";
    assert s[..|s| - 3] == x + ":11::";
  }

  /** The current spec keeps this node's port, its peer and its pin. */
  predicate SameSeen(applied: ServiceSpec, current: ServiceSpec, alloc: Allocations, facts: Facts, n: Node)
    requires Nameable(applied, current, alloc, facts, n)
  {
    && PortOn(current, n) == PortOn(applied, n)
    && facts.locators[PeerOf(current, n)] == facts.locators[PeerOf(applied, n)]
    && alloc.prefixes[PeerOf(current, n)] == alloc.prefixes[PeerOf(applied, n)]
    && (PinsAt(applied, n) ==> PinsAt(current, n))
  }

  ghost predicate CleanAfter(applied: ServiceSpec, current: ServiceSpec, alloc: Allocations, facts: Facts, n: Node, d: Device)
    requires BuildPlan(applied, alloc, facts).Some? && n in BuildPlan(applied, alloc, facts).value.nodes
  {
    var ops := BuildPlan(applied, alloc, facts).value.nodes[n].ops;
    forall c :: Makes(ops, c) ==> c !in Deleted(current, alloc, facts, n, DoAll(d, Atoms(ops)))
  }

  /** Everything of the applied render is gone from node n exactly when the current
      spec renders, is attached to the node, and keeps its port, its peer and its
      pin there. */
  lemma DeleteIsCleanExactly(applied: ServiceSpec, current: ServiceSpec, alloc: Allocations, facts: Facts, n: Node, d: Device)
    requires BuildPlan(applied, alloc, facts).Some? && n in BuildPlan(applied, alloc, facts).value.nodes
    ensures CleanAfter(applied, current, alloc, facts, n, d) <==>
      && BuildPlan(current, alloc, facts).Some? && Attached(current, n)
      && Nameable(applied, current, alloc, facts, n) && SameSeen(applied, current, alloc, facts, n)
  {
    if !(BuildPlan(current, alloc, facts).Some? && Attached(current, n) && Nameable(applied, current, alloc, facts, n)) {
      LeftWhenGone(applied, current, alloc, facts, n, d);
    } else if SameSeen(applied, current, alloc, facts, n) {
      CleanWhenSame(applied, current, alloc, facts, n, d);
    } else {
      LeftWhenChanged(applied, current, alloc, facts, n, d);
    }
  }

  lemma LeftWhenGone(applied: ServiceSpec, current: ServiceSpec, alloc: Allocations, facts: Facts, n: Node, d: Device)
    requires BuildPlan(applied, alloc, facts).Some? && n in BuildPlan(applied, alloc, facts).value.nodes
    requires !(BuildPlan(current, alloc, facts).Some? && Attached(current, n) && Nameable(applied, current, alloc, facts, n))
    ensures !CleanAfter(applied, current, alloc, facts, n, d)
  {
    var p := BuiltParts(applied, alloc, facts, n);
    var c := RowCell(VrfRow(p.vrf));
    assert Owns(p, c);
    hide BuildPlan, Attached, Nameable, StillNamed, SeenFrom, Owns, Clears, Makes, Verdicts, Atoms, DoAll, Deleted;
    DeleteClearsExactly(applied, current, alloc, facts, n, d, c);
  }

  lemma LeftWhenChanged(applied: ServiceSpec, current: ServiceSpec, alloc: Allocations, facts: Facts, n: Node, d: Device)
    requires BuildPlan(applied, alloc, facts).Some? && n in BuildPlan(applied, alloc, facts).value.nodes
    requires Nameable(applied, current, alloc, facts, n) && !SameSeen(applied, current, alloc, facts, n)
    ensures !CleanAfter(applied, current, alloc, facts, n, d)
  {
    var p := BuiltParts(applied, alloc, facts, n);
    var c := LeftCell(applied, current, alloc, facts, n, p);
    assert Makes(BuildPlan(applied, alloc, facts).value.nodes[n].ops, c);
    DeleteClearsExactly(applied, current, alloc, facts, n, d, c);
  }

  lemma CleanWhenSame(applied: ServiceSpec, current: ServiceSpec, alloc: Allocations, facts: Facts, n: Node, d: Device)
    requires BuildPlan(applied, alloc, facts).Some? && n in BuildPlan(applied, alloc, facts).value.nodes
    requires BuildPlan(current, alloc, facts).Some? && Attached(current, n)
    requires Nameable(applied, current, alloc, facts, n) && SameSeen(applied, current, alloc, facts, n)
    ensures CleanAfter(applied, current, alloc, facts, n, d)
  {
    var ops := BuildPlan(applied, alloc, facts).value.nodes[n].ops;
    var p := BuiltParts(applied, alloc, facts, n);
    forall c | Makes(ops, c) ensures c !in Deleted(current, alloc, facts, n, DoAll(d, Atoms(ops))) {
      SameNamesAll(applied, current, alloc, facts, n, p, c);
      DeleteClearsExactly(applied, current, alloc, facts, n, d, c);
    }
  }

  lemma SameNamesAll(applied: ServiceSpec, current: ServiceSpec, alloc: Allocations, facts: Facts, n: Node, p: Parts, c: Cell)
    requires Nameable(applied, current, alloc, facts, n) && SameSeen(applied, current, alloc, facts, n)
    requires SeenFrom(applied, alloc, facts, n, p) && Owns(p, c)
    ensures StillNamed(applied, current, alloc, facts, n, c)
  {
  }

  /** A cell that stays when the two specs differ on node n. */
  lemma LeftCell(applied: ServiceSpec, current: ServiceSpec, alloc: Allocations, facts: Facts, n: Node, p: Parts) returns (c: Cell)
    requires Nameable(applied, current, alloc, facts, n) && SeenFrom(applied, alloc, facts, n, p)
    requires !SameSeen(applied, current, alloc, facts, n)
    ensures Owns(p, c) && !StillNamed(applied, current, alloc, facts, n, c)
  {
    SidShapes(facts.locators[n], p.peer.loc);
    SidShapes(p.peer.loc, p.peer.loc);
    if PortOn(current, n) != PortOn(applied, n) {
      c := ClientDefault(p.att);
    } else if facts.locators[PeerOf(current, n)] != facts.locators[PeerOf(applied, n)] {
      c := MainRoute(p.peer.loc);
    } else if alloc.prefixes[PeerOf(current, n)] != alloc.prefixes[PeerOf(applied, n)] {
      c := VrfRoute(p.vrf, p.peer.client);
    } else {
      c := MainRoute(p.peer.sidFn);
    }
  }

  // ---- two services ----------------------------------------------------------------------------

  /** Rolling `mine` back takes no entry of `other` on any node. */
  ghost predicate Isolated(mine: Plan, other: Plan) {
    forall n, d, c :: n in other.nodes && Makes(other.nodes[n].ops, c) ==>
      Look(RolledBack(mine, n, Applied(other, n, d)), c) == Look(Applied(other, n, d), c)
  }

  /** Rolling one service back takes nothing from another exactly when the two have
      no attachment node in common: on a shared node the other's VRF row goes with
      the table, whatever the identifiers. */
  lemma IsolatedExactly(spec: ServiceSpec, alloc: Allocations, spec2: ServiceSpec, alloc2: Allocations, facts: Facts)
    requires BuildPlan(spec, alloc, facts).Some? && BuildPlan(spec2, alloc2, facts).Some?
    ensures Isolated(BuildPlan(spec, alloc, facts).value, BuildPlan(spec2, alloc2, facts).value) <==>
      forall n :: !(Attached(spec, n) && Attached(spec2, n))
  {
    var mine, other := BuildPlan(spec, alloc, facts).value, BuildPlan(spec2, alloc2, facts).value;
    if n :| Attached(spec, n) && Attached(spec2, n) {
      BuiltNodes(spec, alloc, facts, n);
      BuiltNodes(spec2, alloc2, facts, n);
      SharedNodeLoses(spec, alloc, spec2, alloc2, facts, n);
    } else {
      forall n | n in other.nodes ensures n !in mine.nodes {
        BuiltNodes(spec, alloc, facts, n);
        BuiltNodes(spec2, alloc2, facts, n);
      }
      ApartIsIsolated(mine, other);
    }
  }

  lemma ApartIsIsolated(mine: Plan, other: Plan)
    requires forall n :: n in other.nodes ==> n !in mine.nodes
    ensures Isolated(mine, other)
  {
  }

  lemma SharedNodeLoses(spec: ServiceSpec, alloc: Allocations, spec2: ServiceSpec, alloc2: Allocations, facts: Facts, n: Node)
    requires BuildPlan(spec, alloc, facts).Some? && n in BuildPlan(spec, alloc, facts).value.nodes
    requires BuildPlan(spec2, alloc2, facts).Some? && n in BuildPlan(spec2, alloc2, facts).value.nodes
    ensures !Isolated(BuildPlan(spec, alloc, facts).value, BuildPlan(spec2, alloc2, facts).value)
  {
    var mine, other := BuildPlan(spec, alloc, facts).value, BuildPlan(spec2, alloc2, facts).value;
    var p := BuiltParts(spec, alloc, facts, n);
    var q := BuiltParts(spec2, alloc2, facts, n);
    var c := RowCell(VrfRow(q.vrf));
    assert Owns(q, c) && Clears(p, c);
    TakenFrom(mine, other, n, c);
  }

  lemma TakenFrom(mine: Plan, other: Plan, n: Node, c: Cell)
    requires n in mine.nodes && n in other.nodes
    requires Makes(other.nodes[n].ops, c) && Verdicts(Atoms(mine.nodes[n].rollback), c) == Left(None)
    ensures !Isolated(mine, other)
  {
    var d: Device := map[];
    LastWriterWins(d, Atoms(other.nodes[n].ops), c);
    LastWriterWins(Applied(other, n, d), Atoms(mine.nodes[n].rollback), c);
    assert Look(RolledBack(mine, n, Applied(other, n, d)), c) != Look(Applied(other, n, d), c);
  }

  // ---- rows that are not the service's --------------------------------------------------------

  /** No op and no rollback of a built plan touches a locator or SID row. */
  lemma BootstrapRowsAreSafe(spec: ServiceSpec, alloc: Allocations, facts: Facts, n: Node, row: Row)
    requires BuildPlan(spec, alloc, facts).Some? && n in BuildPlan(spec, alloc, facts).value.nodes
    requires row.LocatorRow? || row.SidRow?
    ensures var np := BuildPlan(spec, alloc, facts).value.nodes[n];
      Verdicts(Atoms(np.ops), RowCell(row)) == Untouched && Verdicts(Atoms(np.rollback), RowCell(row)) == Untouched
  {
    var derived := facts.(sids := ServiceSids(spec, facts.locators));
    var frame, self, peer, link, addr := PartsOfPlan(spec, alloc, derived, n);
    BootstrapRow(spec, frame, n, self, peer, link, addr, row);
  }

  lemma BootstrapRow(spec: ServiceSpec, frame: Frame, n: Node, self: Attach, peer: Attach, link: string, addr: string, row: Row)
    requires row.LocatorRow? || row.SidRow?
    ensures Verdicts(Atoms(NodeOps(spec, frame, n, self, peer, link, addr)), RowCell(row)) == Untouched
    ensures Verdicts(Atoms(NodeRollback(spec, frame, n, self, peer)), RowCell(row)) == Untouched
  {
    OpsLeaveOwned(spec, frame, n, self, peer, link, addr, RowCell(row));
    RollbackClears(spec, frame, n, self, peer, link, addr, RowCell(row));
  }

  /** The interface row of a node is that of its port, and of no other. */
  lemma PortRow(spec: ServiceSpec, alloc: Allocations, facts: Facts, n: Node, port: string)
    requires BuildPlan(spec, alloc, facts).Some? && n in BuildPlan(spec, alloc, facts).value.nodes
    ensures |spec.attachments| == 2
    ensures var np, c := BuildPlan(spec, alloc, facts).value.nodes[n], RowCell(InterfaceRow(port));
      && (Makes(np.ops, c) <==> Port(facts.ports, PortOn(spec, n)) == Some(port))
      && (Verdicts(Atoms(np.ops), c).Left? <==> Port(facts.ports, PortOn(spec, n)) == Some(port))
      && Verdicts(Atoms(np.rollback), c) == if Port(facts.ports, PortOn(spec, n)) == Some(port) then Left(None) else Untouched
  {
    hide *;
    var p := BuiltParts(spec, alloc, facts, n);
    RowOfParts(p, port);
    SeenPort(spec, alloc, facts, n, p);
  }

  lemma RowOfParts(p: Parts, port: string)
    ensures var c := RowCell(InterfaceRow(port));
      (Owns(p, c) <==> p.self.port == port) && !ClientCell(p, c) && (Clears(p, c) <==> p.self.port == port)
  {
  }

  lemma SeenPort(spec: ServiceSpec, alloc: Allocations, facts: Facts, n: Node, p: Parts)
    requires |spec.attachments| == 2 && SeenFrom(spec, alloc, facts, n, p)
    ensures Port(facts.ports, PortOn(spec, n)) == Some(p.self.port)
  {
  }

  // ---- a rejected removal -----------------------------------------------------------------------

  /** The writes of a node's rollback, in order. */
  function RollbackWrites(p: Parts): seq<Atom> {
    (if p.steered then [Drop(MainRoute(p.peer.sidFn))] else [])
    + [Drop(VrfRoute(p.vrf, p.peer.client)), Drop(MainRoute(p.self.sid)), Drop(MainRoute(p.peer.loc)),
       Drop(RowCell(AddressRow(p.self.port, p.self.gw))), Drop(RowCell(InterfaceRow(p.self.port))), DropVrfs, DropClient(p.att)]
  }

  lemma RollbackIs(spec: ServiceSpec, frame: Frame, n: Node, self: Attach, peer: Attach, link: string, addr: string)
    ensures Atoms(NodeRollback(spec, frame, n, self, peer)) == RollbackWrites(PartsOf(spec, frame, n, self, peer, link, addr))
  {
    var p := PartsOf(spec, frame, n, self, peer, link, addr);
    var ops := NodeRollback(spec, frame, n, self, peer);
    RouteWrites(p);
    TwoRows(RemoveRow(AddressRow(self.port, self.gw)), RemoveRow(InterfaceRow(self.port)));
    OneOfEach(RemoveVrfTable, FlushPort(self.port), p.att);
    FiveOps(ops[0], ops[1], ops[2], ops[3], ops[4]);
    assert ops == [ops[0], ops[1], ops[2], ops[3], ops[4]];
    WritesTogether(p);
  }

  lemma RouteWrites(p: Parts)
    ensures ShellAtoms((if p.steered then [DeleteRoute(p.peer.sidFn)] else [])
                       + [DeleteVrfRoute(p.vrf, p.peer.client), DeleteRoute(p.self.sid), DeleteRoute(p.peer.loc)])
         == RollbackWrites(p)[..if p.steered then 4 else 3]
  {
    var tail := [DeleteVrfRoute(p.vrf, p.peer.client), DeleteRoute(p.self.sid), DeleteRoute(p.peer.loc)];
    ThreeRoutes(tail[0], tail[1], tail[2]);
    if p.steered { RoutesCons(DeleteRoute(p.peer.sidFn), tail); } else { assert [] + tail == tail; }
  }

  lemma WritesTogether(p: Parts)
    ensures RollbackWrites(p) == RollbackWrites(p)[..if p.steered then 4 else 3]
      + ([Drop(RowCell(AddressRow(p.self.port, p.self.gw))), Drop(RowCell(InterfaceRow(p.self.port)))]
         + ([DropVrfs] + ([] + [DropClient(p.att)])))
  {
  }

  lemma RoutesCons(k: KernelCmd, rest: seq<KernelCmd>)
    ensures ShellAtoms([k] + rest) == KernelAtoms(k) + ShellAtoms(rest)
  {
    assert ([k] + rest)[1..] == rest;
  }

  lemma ThreeRoutes(a: KernelCmd, b: KernelCmd, c: KernelCmd)
    ensures ShellAtoms([a, b, c]) == KernelAtoms(a) + KernelAtoms(b) + KernelAtoms(c)
  {
    RoutesCons(c, []);
    RoutesCons(b, [c]);
    RoutesCons(a, [b, c]);
    assert [c] + [] == [c] && [b] + [c] == [b, c] && [a] + [b, c] == [a, b, c];
  }

  lemma TwoRows(a: PatchStep, b: PatchStep)
    ensures PatchAtoms([a, b]) == [PatchAtom(a), PatchAtom(b)]
  {
    assert [a, b][1..] == [b];
    assert PatchAtoms([b]) == [PatchAtom(b)] + PatchAtoms([b][1..]);
  }

  lemma OneOfEach(s: PatchStep, k: KernelCmd, att: string)
    ensures PatchAtoms([s]) == [PatchAtom(s)]
    ensures ShellAtoms([k]) == KernelAtoms(k)
    ensures ClientAtoms(att, [FlushClient]) == [DropClient(att)]
  {
    RoutesCons(k, []);
    assert [k] + [] == [k];
    assert PatchAtoms([s]) == [PatchAtom(s)] + PatchAtoms([s][1..]);
    assert ClientAtoms(att, [FlushClient]) == [ClientAtom(att, FlushClient)] + ClientAtoms(att, [FlushClient][1..]);
  }

  lemma OpsCons(op: Op, rest: seq<Op>)
    ensures Atoms([op] + rest) == OpAtoms(op) + Atoms(rest)
  {
    assert ([op] + rest)[1..] == rest;
  }

  lemma FiveOps(a: Op, b: Op, c: Op, d: Op, e: Op)
    ensures Atoms([a, b, c, d, e]) == OpAtoms(a) + (OpAtoms(b) + (OpAtoms(c) + (OpAtoms(d) + OpAtoms(e))))
  {
    hide Atoms, OpAtoms;
    OpsCons(a, [b, c, d, e]);
    assert [a] + [b, c, d, e] == [a, b, c, d, e];
    FourOps(b, c, d, e);
  }

  lemma FourOps(b: Op, c: Op, d: Op, e: Op)
    ensures Atoms([b, c, d, e]) == OpAtoms(b) + (OpAtoms(c) + (OpAtoms(d) + OpAtoms(e)))
  {
    OpsCons(e, []);
    OpsCons(d, [e]);
    OpsCons(c, [d, e]);
    OpsCons(b, [c, d, e]);
    assert [e] + [] == [e] && [d] + [e] == [d, e] && [c] + [d, e] == [c, d, e] && [b] + [c, d, e] == [b, c, d, e];
  }

  /** A list of deletions, cut short, has touched a cell exactly when it got past the
      first deletion of it. */
  lemma {:induction false} CutShort(atoms: seq<Atom>, c: Cell, i: nat, landed: nat)
    requires landed <= |atoms| && i < |atoms| && Drops(atoms[i], c)
    requires forall j :: 0 <= j < |atoms| ==> !atoms[j].Put?
    requires forall j :: 0 <= j < i ==> !Drops(atoms[j], c)
    ensures Verdicts(atoms[..landed], c) == if i < landed then Left(None) else Untouched
  {
    if landed > 0 {
      assert atoms[..landed][1..] == atoms[1..][..landed - 1] && atoms[..landed][0] == atoms[0];
      if i > 0 {
        CutShort(atoms[1..], c, i - 1, landed - 1);
      } else {
        DropsOnly(atoms[..landed][1..], c);
      }
    }
  }

  lemma {:induction false} DropsOnly(atoms: seq<Atom>, c: Cell)
    requires forall j :: 0 <= j < |atoms| ==> !atoms[j].Put?
    ensures Verdicts(atoms, c) in {Untouched, Left(None)}
  {
    if atoms != [] { DropsOnly(atoms[1..], c); }
  }

  /** An attachment moved to another port: when the removal is rejected after this many
      of its writes, the update leaves the old port's row on the node exactly when the
      row's own deletion, the fifth write, or the sixth behind a preferred pin, is not
      among them. The update applies, verifies and records all the same. */
  lemma RejectedRemovalKeepsOldPort(applied: ServiceSpec, wanted: ServiceSpec, alloc: Allocations, facts: Facts, n: Node, d: Device, landed: nat)
    requires BuildPlan(applied, alloc, facts).Some? && n in BuildPlan(applied, alloc, facts).value.nodes
    requires BuildPlan(wanted, alloc, facts).Some? && n in BuildPlan(wanted, alloc, facts).value.nodes
    requires landed <= |Atoms(BuildPlan(applied, alloc, facts).value.nodes[n].rollback)|
    ensures |applied.attachments| == 2 && |wanted.attachments| == 2
    ensures var prev, next := BuildPlan(applied, alloc, facts).value, BuildPlan(wanted, alloc, facts).value;
      var port := Port(facts.ports, PortOn(applied, n));
      && port.Some?
      && (Port(facts.ports, PortOn(wanted, n)) != port ==>
            (RowCell(InterfaceRow(port.value)) in Applied(next, n, RemovedPartly(prev, n, Applied(prev, n, d), landed)) <==>
             landed < if PinsAt(applied, n) then 6 else 5))
  {
    var prev, next := BuildPlan(applied, alloc, facts).value, BuildPlan(wanted, alloc, facts).value;
    var derived := facts.(sids := ServiceSids(applied, facts.locators));
    var frame, self, peer, link, addr := PartsOfPlan(applied, alloc, derived, n);
    var p := PartsOf(applied, frame, n, self, peer, link, addr);
    PartsSeen(applied, alloc, facts, frame, n, self, peer, link, addr, prev.nodes[n]);
    RollbackIs(applied, frame, n, self, peer, link, addr);
    var q := BuiltParts(wanted, alloc, facts, n);
    if q.self.port != p.self.port {
      OpsLeaveOwned(applied, frame, n, self, peer, link, addr, RowCell(InterfaceRow(p.self.port)));
      OldPort(prev, next, n, d, landed, p);
      WantedSpares(wanted, alloc, facts, n, p.self.port, q);
    }
  }

  lemma WantedSpares(wanted: ServiceSpec, alloc: Allocations, facts: Facts, n: Node, port: string, q: Parts)
    requires BuildPlan(wanted, alloc, facts).Some? && n in BuildPlan(wanted, alloc, facts).value.nodes
    requires |wanted.attachments| == 2 && SeenFrom(wanted, alloc, facts, n, q) && port != q.self.port
    ensures Verdicts(Atoms(BuildPlan(wanted, alloc, facts).value.nodes[n].ops), RowCell(InterfaceRow(port))) == Untouched
  {
    hide *;
    PortRow(wanted, alloc, facts, n, port);
    SeenPort(wanted, alloc, facts, n, q);
  }

  lemma OldPort(prev: Plan, next: Plan, n: Node, d: Device, landed: nat, p: Parts)
    requires n in prev.nodes && n in next.nodes && Atoms(prev.nodes[n].rollback) == RollbackWrites(p)
    requires landed <= |RollbackWrites(p)| && Makes(prev.nodes[n].ops, RowCell(InterfaceRow(p.self.port)))
    ensures Verdicts(Atoms(next.nodes[n].ops), RowCell(InterfaceRow(p.self.port))) == Untouched ==>
      (RowCell(InterfaceRow(p.self.port)) in Applied(next, n, RemovedPartly(prev, n, Applied(prev, n, d), landed)) <==>
       landed < if p.steered then 6 else 5)
  {
    var c := RowCell(InterfaceRow(p.self.port));
    var writes := RollbackWrites(p);
    CutShort(writes, c, if p.steered then 5 else 4, landed);
    LastWriterWins(d, Atoms(prev.nodes[n].ops), c);
    LastWriterWins(Applied(prev, n, d), writes[..landed], c);
    LastWriterWins(RemovedPartly(prev, n, Applied(prev, n, d), landed), Atoms(next.nodes[n].ops), c);
  }
}
