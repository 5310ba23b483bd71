/** Abandoned edits, failed repairs and edits inside an update under the
    controller's renderer: what they leave on the nodes, at any site and on two
    concrete leaves. */
module Srv6Return {
  import opened Text
  import opened ServiceObjects
  import opened SiteNames
  import opened PassMachine
  import opened PassInvariant
  import opened PassRuns
  import opened PassApplied
  import opened PassDrive
  import opened PassRace
  import opened PassDevices
  import opened PassReturn
  import opened PassRepair
  import opened Devices
  import opened Fabric
  import opened Srv6Render
  import opened Srv6Laws
  import opened Srv6Site
  import opened Srv6Delete
  import opened Srv6Runs

  // ---- what the ops of one spec touch of another's -------------------------------------------------

  /** The ops of spec a touch all that b's make on a node exactly when a is attached
      there with b's port, peer and pin. */
  lemma OverwritesExactly(a: ServiceSpec, b: ServiceSpec, alloc: Allocations, facts: Facts, n: Node)
    requires BuildPlan(a, alloc, facts).Some? && BuildPlan(b, alloc, facts).Some? && n in BuildPlan(b, alloc, facts).value.nodes
    ensures Overwrites(BuildPlan(a, alloc, facts).value, BuildPlan(b, alloc, facts).value, n) <==>
      Attached(a, n) && Nameable(b, a, alloc, facts, n) && SameSeen(b, a, alloc, facts, n)
  {
    hide *;
    var p := BuiltParts(b, alloc, facts, n);
    BuiltNodes(a, alloc, facts, n);
    if Attached(a, n) {
      var q := BuiltParts(a, alloc, facts, n);
      TouchesAll(b, a, alloc, facts, n, p, q);
      OverwritesParts(BuildPlan(a, alloc, facts).value, BuildPlan(b, alloc, facts).value, n, p, q);
    } else {
      OverwritesNothing(BuildPlan(a, alloc, facts).value, BuildPlan(b, alloc, facts).value, n, p);
    }
  }

  lemma OverwritesParts(prev: Plan, next: Plan, n: Node, p: Parts, q: Parts)
    requires n in prev.nodes && n in next.nodes
    requires forall c :: Makes(next.nodes[n].ops, c) <==> Owns(p, c)
    requires forall c :: Verdicts(Atoms(prev.nodes[n].ops), c).Left? <==> Owns(q, c) || ClientCell(q, c)
    ensures Overwrites(prev, next, n) <==> forall c :: Owns(p, c) ==> Owns(q, c) || ClientCell(q, c)
  {
    hide Makes, Verdicts, Owns, ClientCell;
    if Overwrites(prev, next, n) {
      forall c | Owns(p, c) ensures Owns(q, c) || ClientCell(q, c) { assert Makes(OpsOn(next, n), c); }
    }
  }

  lemma OverwritesNothing(prev: Plan, next: Plan, n: Node, p: Parts)
    requires n !in prev.nodes && n in next.nodes && forall c :: Makes(next.nodes[n].ops, c) <==> Owns(p, c)
    ensures !Overwrites(prev, next, n)
  {
    var c := RowCell(VrfRow(p.vrf));
    assert Owns(p, c) && Makes(OpsOn(next, n), c);
    assert Verdicts(Atoms(OpsOn(prev, n)), c) == Untouched;
  }

  /** The same of the two nodes' parts. */
  lemma TouchesAll(b: ServiceSpec, a: ServiceSpec, alloc: Allocations, facts: Facts, n: Node, p: Parts, q: Parts)
    requires |a.attachments| == 2 && |b.attachments| == 2 && SeenFrom(b, alloc, facts, n, p) && SeenFrom(a, alloc, facts, n, q)
    ensures (forall c :: Owns(p, c) ==> Owns(q, c) || ClientCell(q, c)) <==> Nameable(b, a, alloc, facts, n) && SameSeen(b, a, alloc, facts, n)
  {
    forall c | Owns(p, c) ensures Nameable(b, a, alloc, facts, n) && (Owns(q, c) || ClientCell(q, c) <==> StillNamed(b, a, alloc, facts, n, c)) {
      ClearedCells(b, a, alloc, facts, n, p, q, c);
    }
    assert Owns(p, RowCell(VrfRow(p.vrf)));
    hide Owns, ClientCell, SeenFrom, SameSeen, StillNamed, Nameable;
    if SameSeen(b, a, alloc, facts, n) {
      forall c | Owns(p, c) ensures StillNamed(b, a, alloc, facts, n, c) { SameNamesAll(b, a, alloc, facts, n, p, c); }
    } else {
      var c := LeftCell(b, a, alloc, facts, n, p);
    }
  }

  // ---- an abandoned edit ------------------------------------------------------------------------------

  /** The activated service, and the edit that is abandoned. */
  ghost predicate Abandoning(site: Site, facts: Facts, a: ServiceSpec, b: ServiceSpec, ids: Allocations) {
    && BuildPlan(a, ids, facts).Some? && BuildPlan(b, ids, facts).Some?
    && !HashesEqual(PlanHashes(site, BuildPlan(a, ids, facts).value), PlanHashes(site, BuildPlan(b, ids, facts).value))
  }

  /** A service is activated; an edit is applied, fails its first check and is taken
      back; the next pass repairs. The service is settled and every node of its render
      took the recorded ops last; a node of the edit's plan holds exactly the recorded
      render precisely when the edit kept the node, its port, its peer and its pin. */
  lemma AbandonedEditLeavesExactly(facts: Facts, corr: Key -> CorrId, keyOf: CorrId -> Option<Key>, hash: seq<Op> -> int,
                                   key: Key, a: ServiceSpec, b: ServiceSpec, t: Turn) returns (moves: seq<Move>, w: World)
    requires Apart(corr, keyOf, hash) && Good(t)
    requires var site := SiteOf(facts, corr, keyOf, hash); Abandoning(site, facts, a, b, FirstIds(site, a, t.address))
    ensures var site := SiteOf(facts, corr, keyOf, hash); var ids := FirstIds(site, a, t.address);
      && w == Run(site, EmptyWorld, moves) && SettledAsRecorded(site, w, key, a, ids)
      && var prev, next := BuildPlan(a, ids, facts).value, BuildPlan(b, ids, facts).value;
      && (forall n :: n in prev.nodes ==> LastTook(w.log, key, n, prev.nodes[n].ops))
      && forall n, cuts :: n in next.nodes ==>
           (ExactOn(next, prev, n, Held(w.log, n, cuts)) <==>
              Attached(a, n) && Nameable(b, a, ids, facts, n) && SameSeen(b, a, ids, facts, n))
  {
    var site := SiteOf(facts, corr, keyOf, hash);
    var ids := FirstIds(site, a, t.address);
    var prev, next := BuildPlan(a, ids, facts).value, BuildPlan(b, ids, facts).value;
    var w0;
    moves, w0, w := AbandonedRun(site, facts, corr, keyOf, hash, key, a, b, t);
    forall n | n in prev.nodes ensures LastTook(w.log, key, n, prev.nodes[n].ops) { AbandonedIsOnRecord(w0.log, key, prev, next, n); }
    forall n, cuts | n in next.nodes
      ensures ExactOn(next, prev, n, Held(w.log, n, cuts)) <==> Attached(a, n) && Nameable(b, a, ids, facts, n) && SameSeen(b, a, ids, facts, n)
    {
      AbandonedIsExact(w0.log, key, prev, next, n, cuts);
      OverwritesExactly(a, b, ids, facts, n);
    }
  }

  /** The activation and the abandoned edit. */
  lemma AbandonedRun(site: Site, facts: Facts, corr: Key -> CorrId, keyOf: CorrId -> Option<Key>, hash: seq<Op> -> int,
                     key: Key, a: ServiceSpec, b: ServiceSpec, t: Turn) returns (moves: seq<Move>, w0: World, w: World)
    requires site == SiteOf(facts, corr, keyOf, hash) && Apart(corr, keyOf, hash) && Good(t)
    requires Abandoning(site, facts, a, b, FirstIds(site, a, t.address))
    ensures var ids := FirstIds(site, a, t.address);
      && w == Run(site, EmptyWorld, moves) && SettledAsRecorded(site, w, key, a, ids)
      && w.log == w0.log + AbandonedLog(key, BuildPlan(a, ids, facts).value, BuildPlan(b, ids, facts).value)
  {
    var first;
    first, w0 := Activated(site, facts, corr, keyOf, hash, key, a, t);
    var second;
    second, w := AbandonedEditSettles(site, w0, key, b, t);
    moves := first + second;
    RunConcat(site, EmptyWorld, first, second);
  }

  lemma Activated(site: Site, facts: Facts, corr: Key -> CorrId, keyOf: CorrId -> Option<Key>, hash: seq<Op> -> int,
                  key: Key, a: ServiceSpec, t: Turn) returns (moves: seq<Move>, w: World)
    requires site == SiteOf(facts, corr, keyOf, hash) && Apart(corr, keyOf, hash) && Good(t)
    requires BuildPlan(a, FirstIds(site, a, t.address), facts).Some?
    ensures SiteOk(site) && RenderOk(site) && w == Run(site, EmptyWorld, moves)
    ensures SettledAsRecorded(site, w, key, a, FirstIds(site, a, t.address))
    ensures w.objects[key].status.configHashes == PlanHashes(site, BuildPlan(a, FirstIds(site, a, t.address), facts).value)
  {
    RendererIsOk(facts, corr, keyOf, hash);
    moves := ActivationSettles(site, key, a, t);
    w := Run(site, EmptyWorld, moves);
    RunOk(site, moves);
  }

  // ---- on two leaves ----------------------------------------------------------------------------------

  const OldPort := OnPort("wan1", Srv6Runs.Gateway)
  const NewPort := OnPort("wan2", Srv6Runs.Gateway)

  /** The interface rows of the two access ports of leaf01. */
  const OldRow := RowCell(InterfaceRow("Ethernet8"))
  const NewRow := RowCell(InterfaceRow("Ethernet12"))

  lemma PortsOfLeaf01()
    ensures Port(TwoPorts, PortOn(OldPort, "leaf01")) == Some("Ethernet8")
    ensures Port(TwoPorts, PortOn(NewPort, "leaf01")) == Some("Ethernet12")
    ensures Attached(OldPort, "leaf01") && Attached(NewPort, "leaf01")
  {
    assert OldPort.attachments[0] in OldPort.attachments && NewPort.attachments[0] in NewPort.attachments;
  }

  /** Moving leaf01's attachment from one port to the other, under these ids. */
  ghost predicate MovesRow(prev: Plan, next: Plan) {
    && "leaf01" in prev.nodes && "leaf01" in next.nodes
    && Makes(prev.nodes["leaf01"].ops, OldRow) && Verdicts(Atoms(prev.nodes["leaf01"].ops), NewRow) == Untouched
    && Makes(next.nodes["leaf01"].ops, NewRow) && Verdicts(Atoms(next.nodes["leaf01"].ops), OldRow) == Untouched
    && Verdicts(Atoms(prev.nodes["leaf01"].rollback), OldRow) == Left(None) && Verdicts(Atoms(prev.nodes["leaf01"].rollback), NewRow) == Untouched
  }

  lemma PortMoveMovesRow(alloc: Allocations)
    requires BuildPlan(OldPort, alloc, TwoLeaves).Some? && BuildPlan(NewPort, alloc, TwoLeaves).Some?
    ensures MovesRow(BuildPlan(OldPort, alloc, TwoLeaves).value, BuildPlan(NewPort, alloc, TwoLeaves).value)
  {
    hide BuildPlan, Makes, Verdicts, Attached, PortOn, Port;
    PortsOfLeaf01();
    BuiltNodes(OldPort, alloc, TwoLeaves, "leaf01");
    BuiltNodes(NewPort, alloc, TwoLeaves, "leaf01");
    PortRow(OldPort, alloc, TwoLeaves, "leaf01", "Ethernet8");
    PortRow(OldPort, alloc, TwoLeaves, "leaf01", "Ethernet12");
    PortRow(NewPort, alloc, TwoLeaves, "leaf01", "Ethernet8");
    PortRow(NewPort, alloc, TwoLeaves, "leaf01", "Ethernet12");
  }

  /** What the run theorems ask of the port move, at this site under these ids. */
  ghost predicate Moving(site: Site, ids: Allocations) {
    && BuildPlan(OldPort, ids, TwoLeaves).Some? && BuildPlan(NewPort, ids, TwoLeaves).Some?
    && var prev, next := BuildPlan(OldPort, ids, TwoLeaves).value, BuildPlan(NewPort, ids, TwoLeaves).value;
    && MovesRow(prev, next) && PlanCovered(prev) && prev.nodes["leaf01"].ops != next.nodes["leaf01"].ops
    && !HashesEqual(PlanHashes(site, prev), PlanHashes(site, next)) && !HashesEqual(PlanHashes(site, next), PlanHashes(site, prev))
  }

  lemma TwoLeavesMove(site: Site, addr: string)
    requires site.firstId == 1 && addr != "" && forall x, y :: site.hash(x) == site.hash(y) ==> x == y
    ensures Moving(site, FirstIds(site, OldPort, addr))
  {
    hide BuildPlan, PlanHashes, HashesEqual, MovesRow, FirstIds, PlanCovered, PortMoved, OnPort;
    var ids := FirstIds(site, OldPort, addr);
    TwoLeavesQualify(site, addr);
    PortMoveMovesRow(ids);
    BuiltPlanIsCovered(OldPort, ids, TwoLeaves);
    TwoWays(site, ids);
    OpsDiffer(BuildPlan(OldPort, ids, TwoLeaves).value, BuildPlan(NewPort, ids, TwoLeaves).value);
  }

  lemma TwoWays(site: Site, ids: Allocations)
    requires forall x, y :: site.hash(x) == site.hash(y) ==> x == y
    requires BuildPlan(OldPort, ids, TwoLeaves).Some? && BuildPlan(NewPort, ids, TwoLeaves).Some? && PortMoved(OldPort, NewPort, TwoLeaves, "leaf01")
    ensures var prev, next := BuildPlan(OldPort, ids, TwoLeaves).value, BuildPlan(NewPort, ids, TwoLeaves).value;
      !HashesEqual(PlanHashes(site, prev), PlanHashes(site, next)) && !HashesEqual(PlanHashes(site, next), PlanHashes(site, prev))
  {
    hide BuildPlan, PlanHashes, HashesEqual;
    MovedPortHasOtherHash(site, OldPort, NewPort, ids, TwoLeaves, "leaf01");
    MovedPortHasOtherHash(site, NewPort, OldPort, ids, TwoLeaves, "leaf01");
  }

  lemma OpsDiffer(prev: Plan, next: Plan)
    requires MovesRow(prev, next)
    ensures prev.nodes["leaf01"].ops != next.nodes["leaf01"].ops
  {
  }

  /** Which of the two rows leaf01 holds. */
  predicate Rows(d: Device, left: bool, taken: bool) {
    (OldRow in d <==> left) && (NewRow in d <==> taken)
  }

  /** The attachment is moved, the update's first check fails, and it is moved back.
      The next pass skips its apply, while leaf01 took the ops of the new port last,
      and holds its row and not that of the recorded port. */
  lemma SkippedOverMovedPort(corr: Key -> CorrId, keyOf: CorrId -> Option<Key>, hash: seq<Op> -> int, key: Key, t: Turn, cuts: nat -> nat)
      returns (moves: seq<Move>, w: World)
    requires Apart(corr, keyOf, hash) && Good(t) && t.address != ""
    ensures var site := SiteOf(TwoLeaves, corr, keyOf, hash); var ids := FirstIds(site, OldPort, t.address); var w' := Step(site, w, key, t);
      && w == Run(site, EmptyWorld, moves) && key in w.objects && w.objects[key].spec == OldPort && Moving(site, ids)
      && var prev, next := BuildPlan(OldPort, ids, TwoLeaves).value, BuildPlan(NewPort, ids, TwoLeaves).value;
      && Skips(w', key, prev) && w'.log == w.log
      && LastTook(w'.log, key, "leaf01", next.nodes["leaf01"].ops) && !LastTook(w'.log, key, "leaf01", prev.nodes["leaf01"].ops)
      && Rows(Held(w'.log, "leaf01", cuts), false, true)
  {
    var site := SiteOf(TwoLeaves, corr, keyOf, hash);
    var ids := FirstIds(site, OldPort, t.address);
    TwoLeavesMove(site, t.address);
    var prev, next := BuildPlan(OldPort, ids, TwoLeaves).value, BuildPlan(NewPort, ids, TwoLeaves).value;
    var first, w0 := Activated(site, TwoLeaves, corr, keyOf, hash, key, OldPort, t);
    var second;
    second, w := EditBackSkips(site, w0, key, NewPort, t);
    moves := first + second;
    RunConcat(site, EmptyWorld, first, second);
    EditBackHolds(w0.log, key, prev, next, "leaf01", cuts);
    RowMoved(prev, next, Held(w.log, "leaf01", cuts));
  }

  lemma RowMoved(prev: Plan, next: Plan, d: Device)
    requires MovesRow(prev, next) && ExactOn(prev, next, "leaf01", d)
    ensures Rows(d, false, true)
  {
    assert Makes(OpsOn(prev, "leaf01"), OldRow) && Makes(OpsOn(next, "leaf01"), NewRow);
    assert Look(d, OldRow) == EntryLeft(OpsOn(next, "leaf01"), OldRow) && Look(d, NewRow) == EntryLeft(OpsOn(next, "leaf01"), NewRow);
  }

  /** The same move abandoned, to the end: the service is settled and leaf01 took the
      recorded ops last, and it holds the rows of both ports. A delete takes only the
      recorded one. */
  lemma AbandonedPortStays(corr: Key -> CorrId, keyOf: CorrId -> Option<Key>, hash: seq<Op> -> int, key: Key, t: Turn, cuts: nat -> nat)
      returns (moves: seq<Move>, w: World)
    requires Apart(corr, keyOf, hash) && Good(t) && t.address != ""
    ensures var site := SiteOf(TwoLeaves, corr, keyOf, hash); var ids := FirstIds(site, OldPort, t.address);
      && w == Run(site, EmptyWorld, moves) && SettledAsRecorded(site, w, key, OldPort, ids) && Moving(site, ids)
      && LastTook(w.log, key, "leaf01", BuildPlan(OldPort, ids, TwoLeaves).value.nodes["leaf01"].ops)
      && Rows(Held(w.log, "leaf01", cuts), true, true)
      && Rows(Deleted(OldPort, ids, TwoLeaves, "leaf01", Held(w.log, "leaf01", cuts)), false, true)
  {
    var site := SiteOf(TwoLeaves, corr, keyOf, hash);
    var ids := FirstIds(site, OldPort, t.address);
    TwoLeavesMove(site, t.address);
    var prev, next := BuildPlan(OldPort, ids, TwoLeaves).value, BuildPlan(NewPort, ids, TwoLeaves).value;
    var w0;
    moves, w0, w := AbandonedRun(site, TwoLeaves, corr, keyOf, hash, key, OldPort, NewPort, t);
    hide Run, SettledAsRecorded, Held, AbandonedLog, LastTook, Updated, Apart, Good;
    AbandonedIsOnRecord(w0.log, key, prev, next, "leaf01");
    AbandonedHolds(w0.log, key, prev, next, "leaf01", cuts);
    BothRows(prev, next, Held(w0.log, "leaf01", cuts));
    OldRowDeleted(prev, next, Held(w.log, "leaf01", cuts));
  }

  lemma BothRows(prev: Plan, next: Plan, d: Device)
    requires MovesRow(prev, next)
    ensures Rows(Applied(prev, "leaf01", Updated(prev, next, "leaf01", d)), true, true)
  {
    hide Makes, Updated;
    ReappliedIsExact(prev, next, "leaf01", d);
    RowsMade(prev, next);
    LastWriterWins(Updated(prev, next, "leaf01", d), Atoms(OpsOn(prev, "leaf01")), OldRow);
  }

  lemma RowsMade(prev: Plan, next: Plan)
    requires MovesRow(prev, next)
    ensures Makes(OpsOn(next, "leaf01"), NewRow) && EntryLeft(OpsOn(next, "leaf01"), NewRow).Some?
    ensures Verdicts(Atoms(OpsOn(prev, "leaf01")), NewRow) == Untouched
    ensures Verdicts(Atoms(OpsOn(prev, "leaf01")), OldRow).Left? && Verdicts(Atoms(OpsOn(prev, "leaf01")), OldRow).entry.Some?
  {
  }

  lemma OldRowDeleted(prev: Plan, next: Plan, d: Device)
    requires MovesRow(prev, next) && Rows(d, true, true)
    ensures Rows(DoAll(d, Atoms(prev.nodes["leaf01"].rollback)), false, true)
  {
    LastWriterWins(d, Atoms(prev.nodes["leaf01"].rollback), OldRow);
    LastWriterWins(d, Atoms(prev.nodes["leaf01"].rollback), NewRow);
  }

  /** The move inside an update: after the next pass has removed nothing and applied
      the recorded render, leaf01 still holds the row of the port that was left. */
  lemma FirstEditRowStays(corr: Key -> CorrId, keyOf: CorrId -> Option<Key>, hash: seq<Op> -> int, key: Key, t: Turn, cuts: nat -> nat)
      returns (moves: seq<Move>, w: World)
    requires Apart(corr, keyOf, hash) && Good(t) && t.address != ""
    ensures var site := SiteOf(TwoLeaves, corr, keyOf, hash); var ids := FirstIds(site, OldPort, t.address);
      && w == Run(site, EmptyWorld, moves) && PassOf(w, key).Verifying? && PassOf(w, key).verifyMode.UpdateVerify?
      && BuildPlan(OldPort, ids, TwoLeaves) == Some(PassOf(w, key).work.plan) && NewRow in Held(w.log, "leaf01", cuts)
  {
    var site := SiteOf(TwoLeaves, corr, keyOf, hash);
    var ids := FirstIds(site, OldPort, t.address);
    TwoLeavesMove(site, t.address);
    RowsMade(BuildPlan(OldPort, ids, TwoLeaves).value, BuildPlan(NewPort, ids, TwoLeaves).value);
    var first, w0 := Activated(site, TwoLeaves, corr, keyOf, hash, key, OldPort, t);
    var second;
    second, w := FirstEditStays(site, w0, key, NewPort, t, "leaf01", cuts, NewRow);
    moves := first + second;
    RunConcat(site, EmptyWorld, first, second);
  }

  // ---- a repair that a node rejects -------------------------------------------------------------------

  /** A service is activated, a check fails, the first node rejects the repair and
      everything is rolled back. The next pass skips its apply over nodes that hold
      nothing of its render. */
  lemma FailedRepairEmptiesNodes(facts: Facts, corr: Key -> CorrId, keyOf: CorrId -> Option<Key>, hash: seq<Op> -> int, key: Key, a: ServiceSpec, t: Turn)
      returns (moves: seq<Move>, w: World)
    requires Apart(corr, keyOf, hash) && Good(t)
    requires BuildPlan(a, FirstIds(SiteOf(facts, corr, keyOf, hash), a, t.address), facts).Some?
    ensures var site := SiteOf(facts, corr, keyOf, hash); var w' := Step(site, w, key, t);
      var plan := BuildPlan(a, FirstIds(site, a, t.address), facts).value;
      && w == Run(site, EmptyWorld, moves) && Skips(w', key, plan) && w'.log == w.log
      && forall n, c, cuts :: n in plan.nodes && Makes(plan.nodes[n].ops, c) ==> c !in Held(w'.log, n, cuts)
  {
    var site := SiteOf(facts, corr, keyOf, hash);
    var plan := BuildPlan(a, FirstIds(site, a, t.address), facts).value;
    BuiltPlanIsCovered(a, FirstIds(site, a, t.address), facts);
    var first, w0 := Activated(site, facts, corr, keyOf, hash, key, a, t);
    var second;
    second, w := FailedRepairSkips(site, w0, key, t);
    moves := first + second;
    RunConcat(site, EmptyWorld, first, second);
    forall n, c, cuts | n in plan.nodes && Makes(plan.nodes[n].ops, c) ensures c !in Held(w.log, n, cuts) {
      MadeIsRolledBack(plan.nodes[n], c);
      RolledBackHolds(w0.log, key, plan, n, cuts, c);
    }
  }

  lemma MadeIsRolledBack(np: NodePlan, c: Cell)
    requires Covered(np) && Makes(np.ops, c)
    ensures np.rollback != []
  {
  }
}
