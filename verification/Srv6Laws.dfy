/** What every rendered SRv6 plan satisfies: the rollback covers the ops, the
    ops make the plan's own checks true, the order of the two attachments does
    not matter; and what one service's rollback does to another's entries. */
module Srv6Laws {
  import opened Text
  import opened ServiceObjects
  import opened Devices
  import opened Srv6Render

  // ---- verdicts op by op -----------------------------------------------------------

  function Then(first: Verdict, later: Verdict): Verdict {
    if later != Untouched then later else first
  }

  lemma VerdictsCons(op: Op, rest: seq<Op>, c: Cell)
    ensures Verdicts(Atoms([op] + rest), c) == Then(Verdicts(OpAtoms(op), c), Verdicts(Atoms(rest), c))
  {
    assert ([op] + rest)[1..] == rest;
    VerdictsConcat(OpAtoms(op), Atoms(rest), c);
  }

  lemma OneStep(s: PatchStep, c: Cell)
    ensures Verdicts(OpAtoms(Gcu([s])), c) == VerdictOf(PatchAtom(s), c)
  {
    assert PatchAtoms([s]) == [PatchAtom(s)];
  }

  lemma TwoSteps(s: PatchStep, t: PatchStep, c: Cell)
    ensures Verdicts(OpAtoms(Gcu([s, t])), c) == Then(VerdictOf(PatchAtom(s), c), VerdictOf(PatchAtom(t), c))
  {
    assert [s, t][1..] == [t];
    assert PatchAtoms([s, t]) == [PatchAtom(s)] + PatchAtoms([t]);
    assert PatchAtoms([t]) == [PatchAtom(t)];
    VerdictsConcat([PatchAtom(s)], [PatchAtom(t)], c);
  }

  lemma ShellCons(k: KernelCmd, rest: seq<KernelCmd>, c: Cell)
    ensures Verdicts(OpAtoms(Shell([k] + rest)), c) == Then(Verdicts(KernelAtoms(k), c), Verdicts(OpAtoms(Shell(rest)), c))
  {
    assert ([k] + rest)[1..] == rest;
    VerdictsConcat(KernelAtoms(k), ShellAtoms(rest), c);
  }

  lemma OneCommand(k: KernelCmd, c: Cell)
    ensures Verdicts(OpAtoms(Shell([k])), c) == Verdicts(KernelAtoms(k), c)
  {
    assert [k] + [] == [k];
    ShellCons(k, [], c);
  }

  lemma ClientCons(att: string, k: ClientCmd, rest: seq<ClientCmd>, c: Cell)
    ensures Verdicts(OpAtoms(OnClient(att, [k] + rest)), c) == Then(VerdictOf(ClientAtom(att, k), c), Verdicts(OpAtoms(OnClient(att, rest)), c))
  {
    assert ([k] + rest)[1..] == rest;
    VerdictsConcat([ClientAtom(att, k)], ClientAtoms(att, rest), c);
  }

  // ---- one node ------------------------------------------------------------------------

  /** The values a node's plan is rendered from. */
  datatype Parts = Parts(vrf: string, steered: bool, att: string, self: Attach, peer: Attach, link: string, addr: string)

  function PartsOf(spec: ServiceSpec, frame: Frame, n: Node, self: Attach, peer: Attach, link: string, addr: string): Parts {
    Parts(frame.vrf, SteeredIngress(spec, frame, n), n + "/" + self.logic, self, peer, link, addr)
  }

  predicate ClientCell(p: Parts, c: Cell) {
    (c.ClientAddr? || c.ClientDefault?) && c.attachment == p.att
  }

  /** The cells a service owns on a node. */
  predicate Owns(p: Parts, c: Cell) {
    || c == RowCell(VrfRow(p.vrf))
    || c == RowCell(InterfaceRow(p.self.port))
    || c == RowCell(AddressRow(p.self.port, p.self.gw))
    || c == MainRoute(p.self.sid)
    || c == VrfRoute(p.vrf, p.peer.client)
    || c == MainRoute(p.peer.loc)
    || (p.steered && c == MainRoute(p.peer.sidFn))
    || c == ClientAddr(p.att, p.addr)
    || c == ClientDefault(p.att)
  }

  /** The cells a rollback clears: the owned ones, every address of the probe
      client, and every VRF row of the node. */
  predicate Clears(p: Parts, c: Cell) {
    || (c.RowCell? && c.row.VrfRow?)
    || c == RowCell(InterfaceRow(p.self.port))
    || c == RowCell(AddressRow(p.self.port, p.self.gw))
    || c == MainRoute(p.self.sid)
    || c == VrfRoute(p.vrf, p.peer.client)
    || c == MainRoute(p.peer.loc)
    || (p.steered && c == MainRoute(p.peer.sidFn))
    || ClientCell(p, c)
  }

  lemma RollbackClears(spec: ServiceSpec, frame: Frame, n: Node, self: Attach, peer: Attach, link: string, addr: string, c: Cell)
    ensures Verdicts(Atoms(NodeRollback(spec, frame, n, self, peer)), c) ==
      if Clears(PartsOf(spec, frame, n, self, peer, link, addr), c) then Left(None) else Untouched
  {
    var p := PartsOf(spec, frame, n, self, peer, link, addr);
    var ops := NodeRollback(spec, frame, n, self, peer);
    var tail := [DeleteVrfRoute(p.vrf, peer.client), DeleteRoute(self.sid), DeleteRoute(peer.loc)];
    var routes := (if p.steered then [DeleteRoute(peer.sidFn)] else []) + tail;
    RouteDeletes(p, c);
    VerdictsCons(Shell(routes), ops[1..], c);
    assert ops == [Shell(routes)] + ops[1..];
    RowDeletes(p, c);
    assert ops[1..] == [Gcu([RemoveRow(AddressRow(self.port, self.gw)), RemoveRow(InterfaceRow(self.port))]), Gcu([RemoveVrfTable]),
                        Shell([FlushPort(self.port)]), OnClient(p.att, [FlushClient])];
  }

  function RouteCmds(p: Parts): seq<KernelCmd> {
    (if p.steered then [DeleteRoute(p.peer.sidFn)] else [])
    + [DeleteVrfRoute(p.vrf, p.peer.client), DeleteRoute(p.self.sid), DeleteRoute(p.peer.loc)]
  }

  lemma TailDeletes(p: Parts, c: Cell)
    ensures Verdicts(OpAtoms(Shell([DeleteVrfRoute(p.vrf, p.peer.client), DeleteRoute(p.self.sid), DeleteRoute(p.peer.loc)])), c) ==
      if c == MainRoute(p.self.sid) || c == VrfRoute(p.vrf, p.peer.client) || c == MainRoute(p.peer.loc) then Left(None) else Untouched
  {
    var a, b, d := DeleteVrfRoute(p.vrf, p.peer.client), DeleteRoute(p.self.sid), DeleteRoute(p.peer.loc);
    assert [a, b, d] == [a] + [b, d] && [b, d] == [b] + [d];
    ShellCons(a, [b, d], c);
    ShellCons(b, [d], c);
    OneCommand(d, c);
  }

  lemma RouteDeletes(p: Parts, c: Cell)
    ensures Verdicts(OpAtoms(Shell(RouteCmds(p))), c) ==
      if c == MainRoute(p.self.sid) || c == VrfRoute(p.vrf, p.peer.client) || c == MainRoute(p.peer.loc)
         || (p.steered && c == MainRoute(p.peer.sidFn)) then Left(None) else Untouched
  {
    var tail := [DeleteVrfRoute(p.vrf, p.peer.client), DeleteRoute(p.self.sid), DeleteRoute(p.peer.loc)];
    TailDeletes(p, c);
    if p.steered {
      ShellCons(DeleteRoute(p.peer.sidFn), tail, c);
    } else {
      assert RouteCmds(p) == tail;
    }
  }

  function RowOps(p: Parts): seq<Op> {
    [Gcu([RemoveRow(AddressRow(p.self.port, p.self.gw)), RemoveRow(InterfaceRow(p.self.port))]), Gcu([RemoveVrfTable]),
     Shell([FlushPort(p.self.port)]), OnClient(p.att, [FlushClient])]
  }

  lemma RowDeletes(p: Parts, c: Cell)
    ensures Verdicts(Atoms(RowOps(p)), c) ==
      if (c.RowCell? && c.row.VrfRow?) || c == RowCell(InterfaceRow(p.self.port)) || c == RowCell(AddressRow(p.self.port, p.self.gw))
         || ClientCell(p, c) then Left(None) else Untouched
  {
    var ops := RowOps(p);
    assert ops == [ops[0]] + ops[1..] && ops[1..] == [ops[1]] + ops[2..] && ops[2..] == [ops[2]] + ops[3..] && ops[3..] == [ops[3]] + [];
    VerdictsCons(ops[0], ops[1..], c);
    VerdictsCons(ops[1], ops[2..], c);
    VerdictsCons(ops[2], ops[3..], c);
    VerdictsCons(ops[3], [], c);
    TwoSteps(RemoveRow(AddressRow(p.self.port, p.self.gw)), RemoveRow(InterfaceRow(p.self.port)), c);
    OneStep(RemoveVrfTable, c);
    OneCommand(FlushPort(p.self.port), c);
    assert [FlushClient] + [] == [FlushClient];
    ClientCons(p.att, FlushClient, [], c);
  }

  // ---- what the ops leave ----------------------------------------------------------------

  /** The entry each owned cell should hold. */
  function EntryFor(p: Parts, c: Cell): Entry
    requires Owns(p, c)
  {
    match c
    case RowCell(InterfaceRow(_)) => Fields(map["vrf_name" := p.vrf])
    case RowCell(_) => Fields(map[])
    case VrfRoute(_, _) => EncapTo(p.peer.sidFn)
    case ClientAddr(_, _) => Present
    case ClientDefault(_) => Gateway(TrimSuffix(p.self.gw, "/24"))
    case MainRoute(dst) =>
      if p.steered && dst == p.peer.sidFn then Via(p.link, 20)
      else if dst == p.peer.loc then Via(p.link, 5) else DecapInto(p.vrf)
  }

  function RouteOps(p: Parts): seq<Op> {
    [Shell([ReplaceDecap(p.self.sid, p.vrf)]), Shell([ReplaceEncap(p.vrf, p.peer.client, p.peer.sidFn)]),
     Shell([ReplaceLocatorPin(p.peer.loc, p.link)])]
  }

  function PinOps(p: Parts): seq<Op> {
    if p.steered then [Shell([ReplacePreferredPin(p.peer.sidFn, p.link)])] else []
  }

  function AddOps(p: Parts): seq<Op> {
    [Gcu([AddRow(VrfRow(p.vrf), map[])]),
     Gcu([AddRow(InterfaceRow(p.self.port), map["vrf_name" := p.vrf]), AddRow(AddressRow(p.self.port, p.self.gw), map[])])]
  }

  function ClientOps(p: Parts): seq<Op> {
    [OnClient(p.att, [FlushClient, AddClientAddress(p.addr), DefaultVia(TrimSuffix(p.self.gw, "/24"))])]
  }

  lemma AddVerdict(p: Parts, c: Cell)
    ensures Verdicts(Atoms(AddOps(p)), c) == if c.RowCell? && Owns(p, c) then Left(Some(EntryFor(p, c))) else Untouched
  {
    var ops := AddOps(p);
    assert ops == [ops[0]] + [ops[1]] && [ops[1]] == [ops[1]] + [];
    VerdictsCons(ops[0], [ops[1]], c);
    VerdictsCons(ops[1], [], c);
    OneStep(AddRow(VrfRow(p.vrf), map[]), c);
    TwoSteps(AddRow(InterfaceRow(p.self.port), map["vrf_name" := p.vrf]), AddRow(AddressRow(p.self.port, p.self.gw), map[]), c);
  }

  lemma RouteVerdict(p: Parts, c: Cell)
    ensures Verdicts(Atoms(RouteOps(p) + PinOps(p)), c) ==
      if (c.MainRoute? || c.VrfRoute?) && Owns(p, c) then Left(Some(EntryFor(p, c))) else Untouched
  {
    RouteCells(p, c);
    RouteThen(p, c);
    hide Verdicts, Atoms, Owns, EntryFor, KernelAtoms;
  }

  /** What each command does to the cell. */
  lemma RouteCells(p: Parts, c: Cell)
    ensures Then(Verdicts(KernelAtoms(ReplaceDecap(p.self.sid, p.vrf)), c), Then(Verdicts(KernelAtoms(ReplaceEncap(p.vrf, p.peer.client, p.peer.sidFn)), c),
              Then(Verdicts(KernelAtoms(ReplaceLocatorPin(p.peer.loc, p.link)), c), PinVerdict(p, c))))
         == if (c.MainRoute? || c.VrfRoute?) && Owns(p, c) then Left(Some(EntryFor(p, c))) else Untouched
  {
    if p.steered { RouteVerdictOf(ReplacePreferredPin(p.peer.sidFn, p.link), c); }
    RouteVerdictOf(ReplaceDecap(p.self.sid, p.vrf), c);
    RouteVerdictOf(ReplaceEncap(p.vrf, p.peer.client, p.peer.sidFn), c);
    RouteVerdictOf(ReplaceLocatorPin(p.peer.loc, p.link), c);
    hide Verdicts, KernelAtoms;
  }

  lemma RouteVerdictOf(k: KernelCmd, c: Cell)
    requires k.ReplaceDecap? || k.ReplaceEncap? || k.ReplaceLocatorPin? || k.ReplacePreferredPin?
    ensures |KernelAtoms(k)| == 1 && Verdicts(KernelAtoms(k), c) == VerdictOf(KernelAtoms(k)[0], c)
    ensures KernelAtoms(k)[0] == match k
      case ReplaceDecap(sid, vrf) => Put(MainRoute(sid), DecapInto(vrf))
      case ReplaceEncap(vrf, prefix, segment) => Put(VrfRoute(vrf, prefix), EncapTo(segment))
      case ReplaceLocatorPin(locator, via) => Put(MainRoute(locator), Via(via, 5))
      case ReplacePreferredPin(dst, via) => Put(MainRoute(dst), Via(via, 20))
      case _ => KernelAtoms(k)[0]
  {
  }

  function PinVerdict(p: Parts, c: Cell): Verdict {
    if p.steered then Verdicts(KernelAtoms(ReplacePreferredPin(p.peer.sidFn, p.link)), c) else Untouched
  }

  lemma RouteThen(p: Parts, c: Cell)
    ensures Verdicts(Atoms(RouteOps(p) + PinOps(p)), c)
         == Then(Verdicts(KernelAtoms(ReplaceDecap(p.self.sid, p.vrf)), c), Then(Verdicts(KernelAtoms(ReplaceEncap(p.vrf, p.peer.client, p.peer.sidFn)), c),
              Then(Verdicts(KernelAtoms(ReplaceLocatorPin(p.peer.loc, p.link)), c), PinVerdict(p, c))))
  {
    hide KernelAtoms;
    var ops := RouteOps(p);
    var pin := PinOps(p);
    assert ops + pin == [ops[0]] + ([ops[1]] + ([ops[2]] + pin));
    VerdictsCons(ops[0], [ops[1]] + ([ops[2]] + pin), c);
    VerdictsCons(ops[1], [ops[2]] + pin, c);
    VerdictsCons(ops[2], pin, c);
    OneCommand(ReplaceDecap(p.self.sid, p.vrf), c);
    OneCommand(ReplaceEncap(p.vrf, p.peer.client, p.peer.sidFn), c);
    OneCommand(ReplaceLocatorPin(p.peer.loc, p.link), c);
    if p.steered {
      assert pin == [pin[0]] + [];
      VerdictsCons(pin[0], [], c);
      OneCommand(ReplacePreferredPin(p.peer.sidFn, p.link), c);
    }
  }

  lemma ClientVerdict(p: Parts, c: Cell)
    ensures Verdicts(Atoms(ClientOps(p)), c) ==
      if !ClientCell(p, c) then Untouched else Left(if Owns(p, c) then Some(EntryFor(p, c)) else None)
  {
    var x, y, z := FlushClient, AddClientAddress(p.addr), DefaultVia(TrimSuffix(p.self.gw, "/24"));
    assert [x, y, z] == [x] + [y, z] && [y, z] == [y] + [z] && [z] == [z] + [];
    ClientCons(p.att, x, [y, z], c);
    ClientCons(p.att, y, [z], c);
    ClientCons(p.att, z, [], c);
    assert ClientOps(p) == [OnClient(p.att, [x, y, z])] + [];
    VerdictsCons(OnClient(p.att, [x, y, z]), [], c);
  }

  /** The ops leave exactly the owned cells, each with its entry, and besides
      clear only stray addresses of the probe client. */
  lemma OpsLeaveOwned(spec: ServiceSpec, frame: Frame, n: Node, self: Attach, peer: Attach, link: string, addr: string, c: Cell)
    ensures var p := PartsOf(spec, frame, n, self, peer, link, addr);
      var ops := NodeOps(spec, frame, n, self, peer, link, addr);
      && (Owns(p, c) ==> Verdicts(Atoms(ops), c) == Left(Some(EntryFor(p, c))))
      && (!Owns(p, c) ==> Verdicts(Atoms(ops), c) == if ClientCell(p, c) then Left(None) else Untouched)
  {
    var p := PartsOf(spec, frame, n, self, peer, link, addr);
    var ops := NodeOps(spec, frame, n, self, peer, link, addr);
    assert ops == AddOps(p) + ((RouteOps(p) + PinOps(p)) + ClientOps(p));
    AtomsConcat(AddOps(p), (RouteOps(p) + PinOps(p)) + ClientOps(p));
    AtomsConcat(RouteOps(p) + PinOps(p), ClientOps(p));
    VerdictsConcat(Atoms(AddOps(p)), Atoms((RouteOps(p) + PinOps(p)) + ClientOps(p)), c);
    VerdictsConcat(Atoms(RouteOps(p) + PinOps(p)), Atoms(ClientOps(p)), c);
    AddVerdict(p, c);
    RouteVerdict(p, c);
    ClientVerdict(p, c);
    hide Verdicts, Atoms, AddOps, RouteOps, PinOps, ClientOps, EntryFor;
  }

  lemma NodeCovered(spec: ServiceSpec, frame: Frame, n: Node, self: Attach, peer: Attach, link: string, addr: string)
    ensures Covered(NodePlan(NodeOps(spec, frame, n, self, peer, link, addr), NodeChecks(spec, frame, n, self, peer, link, addr),
                             NodeRollback(spec, frame, n, self, peer)))
  {
    var p := PartsOf(spec, frame, n, self, peer, link, addr);
    forall c ensures
      && (Makes(NodeOps(spec, frame, n, self, peer, link, addr), c) ==> Verdicts(Atoms(NodeRollback(spec, frame, n, self, peer)), c) == Left(None))
      && !Makes(NodeRollback(spec, frame, n, self, peer), c)
    {
      OpsLeaveOwned(spec, frame, n, self, peer, link, addr, c);
      RollbackClears(spec, frame, n, self, peer, link, addr, c);
    }
  }

  // ---- whole plans -------------------------------------------------------------------------

  /** The parts a node of a rendered plan was made of. */
  ghost predicate MadeOf(spec: ServiceSpec, alloc: Allocations, facts: Facts, frame: Frame, n: Node,
                         self: Attach, peer: Attach, link: string, addr: string, np: NodePlan)
  {
    && FrameOf(spec, alloc, facts) == Some(frame) && n in {frame.first, frame.second}
    && |spec.attachments| == 2
    && AttachOf(spec, alloc, facts, n) == Some(self)
    && AttachOf(spec, alloc, facts, if n == frame.first then frame.second else frame.first) == Some(peer)
    && PinLink(spec, facts, n) == Some(link)
    && HostAddr(facts, self.client, 2) == Some(addr)
    && np == NodePlan(NodeOps(spec, frame, n, self, peer, link, addr), NodeChecks(spec, frame, n, self, peer, link, addr),
                      NodeRollback(spec, frame, n, self, peer))
  }

  /** A plan covers the two attachment nodes and no other. */
  lemma PlanNodes(spec: ServiceSpec, alloc: Allocations, facts: Facts)
    requires Render(spec, alloc, facts).Some?
    ensures FrameOf(spec, alloc, facts).Some?
    ensures Render(spec, alloc, facts).value.nodes.Keys == {FrameOf(spec, alloc, facts).value.first, FrameOf(spec, alloc, facts).value.second}
  {
  }

  lemma PartsOfPlan(spec: ServiceSpec, alloc: Allocations, facts: Facts, n: Node)
    returns (frame: Frame, self: Attach, peer: Attach, link: string, addr: string)
    requires Render(spec, alloc, facts).Some? && n in Render(spec, alloc, facts).value.nodes
    ensures MadeOf(spec, alloc, facts, frame, n, self, peer, link, addr, Render(spec, alloc, facts).value.nodes[n])
  {
    hide FrameOf, AttachOf, PinLink, HostAddr, NodeOps, NodeChecks, NodeRollback;
    frame := FrameOf(spec, alloc, facts).value;
    self := AttachOf(spec, alloc, facts, n).value;
    peer := AttachOf(spec, alloc, facts, if n == frame.first then frame.second else frame.first).value;
    link := PinLink(spec, facts, n).value;
    addr := HostAddr(facts, self.client, 2).value;
  }

  /** Every rendered plan's rollback deletes every entry its ops create. */
  lemma RenderedPlansAreCovered(spec: ServiceSpec, alloc: Allocations, facts: Facts, n: Node)
    requires Render(spec, alloc, facts).Some? && n in Render(spec, alloc, facts).value.nodes
    ensures Covered(Render(spec, alloc, facts).value.nodes[n])
  {
    var frame, self, peer, link, addr := PartsOfPlan(spec, alloc, facts, n);
    NodeCovered(spec, frame, n, self, peer, link, addr);
  }

  /** The two attachments may be given in either order. */
  lemma AttachmentOrderIsIrrelevant(spec: ServiceSpec, alloc: Allocations, facts: Facts)
    requires |spec.attachments| == 2
    ensures Render(spec.(attachments := [spec.attachments[1], spec.attachments[0]]), alloc, facts) == Render(spec, alloc, facts)
  {
    var swapped := spec.(attachments := [spec.attachments[1], spec.attachments[0]]);
    if FrameOf(spec, alloc, facts).Some? {
      var a, b := spec.attachments[0].node, spec.attachments[1].node;
      LeTotal(a, b);
      if Le(a, b) && Le(b, a) { LeAntisymmetric(a, b); }
      var frame := FrameOf(spec, alloc, facts).value;
      SwappedNode(spec, swapped, alloc, facts, frame, frame.first);
      SwappedNode(spec, swapped, alloc, facts, frame, frame.second);
    }
  }

  lemma SwappedNode(spec: ServiceSpec, swapped: ServiceSpec, alloc: Allocations, facts: Facts, frame: Frame, n: Node)
    requires FrameOf(spec, alloc, facts) == Some(frame) && n in {frame.first, frame.second}
    requires swapped == spec.(attachments := [spec.attachments[1], spec.attachments[0]])
    ensures NodePlanOf(swapped, alloc, facts, frame, n) == NodePlanOf(spec, alloc, facts, frame, n)
  {
    SwappedAttach(spec, swapped, alloc, facts, frame.first);
    SwappedAttach(spec, swapped, alloc, facts, frame.second);
    assert PinLink(swapped, facts, n) == PinLink(spec, facts, n);
  }

  lemma SwappedAttach(spec: ServiceSpec, swapped: ServiceSpec, alloc: Allocations, facts: Facts, n: Node)
    requires |spec.attachments| == 2 && spec.attachments[0].node != spec.attachments[1].node
    requires n == spec.attachments[0].node || n == spec.attachments[1].node
    requires swapped == spec.(attachments := [spec.attachments[1], spec.attachments[0]])
    ensures AttachOf(swapped, alloc, facts, n) == AttachOf(spec, alloc, facts, n)
  {
  }

  // ---- the checks ----------------------------------------------------------------------------

  /** What a check reads: rows, routes and client addresses. The port and VRF
      device checks read what the managers derive from the rows. */
  ghost predicate Holds(d: Device, check: Check) {
    match check
    case RowExists(row) => RowCell(row) in d
    case PortAddress(port, addr) => RowCell(AddressRow(port, addr)) in d
    case PortMaster(port, vrf) => Look(d, RowCell(InterfaceRow(port))) == Some(Fields(map["vrf_name" := vrf]))
    case VrfDeviceUp(vrf) => RowCell(VrfRow(vrf)) in d
    case DecapShown(sid) => MainRoute(sid) in d && d[MainRoute(sid)].DecapInto?
    case EncapShown(vrf, segment) => exists c :: c in d && c.VrfRoute? && c.vrf == vrf && d[c] == EncapTo(segment)
    case LocatorPinShown(locator, via) => Look(d, MainRoute(locator)) == Some(Via(via, 5))
    case PreferredPinShown(dst, via) => Look(d, MainRoute(dst)) == Some(Via(via, 20))
    case ClientAddress(att, addr) => ClientAddr(att, addr) in d
  }

  /** The three main-table destinations of a node are different routes. */
  predicate Separate(p: Parts) {
    p.self.sid != p.peer.loc && (p.steered ==> p.peer.sidFn != p.self.sid && p.peer.sidFn != p.peer.loc)
  }

  /** Whatever the device held before, the ops make every check of the node plan
      true. */
  lemma OpsEstablishChecks(spec: ServiceSpec, frame: Frame, n: Node, self: Attach, peer: Attach, link: string, addr: string,
                           d: Device, check: Check)
    requires Separate(PartsOf(spec, frame, n, self, peer, link, addr))
    requires check in NodeChecks(spec, frame, n, self, peer, link, addr)
    ensures Holds(DoAll(d, Atoms(NodeOps(spec, frame, n, self, peer, link, addr))), check)
  {
    var p := PartsOf(spec, frame, n, self, peer, link, addr);
    var ops := NodeOps(spec, frame, n, self, peer, link, addr);
    var cell := CellRead(p, check);
    OpsLeaveOwned(spec, frame, n, self, peer, link, addr, cell);
    LastWriterWins(d, Atoms(ops), cell);
    CheckReadsOwned(spec, frame, n, self, peer, link, addr, DoAll(d, Atoms(ops)), check);
    hide Verdicts, Atoms, DoAll, Owns, EntryFor, NodeOps, NodeChecks, Holds, CellRead, Separate;
  }

  /** Every check holds of a device with the owned entry in the cell it looks at. */
  lemma CheckReadsOwned(spec: ServiceSpec, frame: Frame, n: Node, self: Attach, peer: Attach, link: string, addr: string,
                        d: Device, check: Check)
    requires Separate(PartsOf(spec, frame, n, self, peer, link, addr))
    requires check in NodeChecks(spec, frame, n, self, peer, link, addr)
    ensures var p := PartsOf(spec, frame, n, self, peer, link, addr); var cell := CellRead(p, check);
      Owns(p, cell) && (Look(d, cell) == Some(EntryFor(p, cell)) ==> Holds(d, check))
  {
  }

  /** The owned cell a check looks at. */
  function CellRead(p: Parts, check: Check): Cell {
    match check
    case RowExists(row) => RowCell(row)
    case PortAddress(port, a) => RowCell(AddressRow(port, a))
    case PortMaster(port, _) => RowCell(InterfaceRow(port))
    case VrfDeviceUp(vrf) => RowCell(VrfRow(vrf))
    case DecapShown(sid) => MainRoute(sid)
    case EncapShown(vrf, _) => VrfRoute(vrf, p.peer.client)
    case LocatorPinShown(locator, _) => MainRoute(locator)
    case PreferredPinShown(dst, _) => MainRoute(dst)
    case ClientAddress(att, a) => ClientAddr(att, a)
  }

  // ---- two services on the same nodes --------------------------------------------------------

  /** On a node that holds another service, a rollback takes exactly the other's
      entries in cells it clears. */
  lemma RollbackTakesFromOthers(mine: NodePlan, spec: ServiceSpec, frame: Frame, n: Node, self: Attach, peer: Attach,
                                link: string, addr: string, d: Device, c: Cell)
    requires mine.rollback == NodeRollback(spec, frame, n, self, peer)
    ensures var d' := DoAll(d, Atoms(mine.rollback));
      Look(d', c) == if Clears(PartsOf(spec, frame, n, self, peer, link, addr), c) then None else Look(d, c)
  {
    RollbackClears(spec, frame, n, self, peer, link, addr, c);
    LastWriterWins(d, Atoms(mine.rollback), c);
  }
}
