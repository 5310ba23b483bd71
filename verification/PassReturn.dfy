/** Runs that leave nodes off an unchanged record, at every site: an update that
    fails its check and is edited back, a repair that a node rejects, and what an
    edit inside an update leaves behind. */
module PassReturn {
  import opened Text
  import opened ServiceObjects
  import opened PassMachine
  import opened PassInvariant
  import opened PassApplied
  import opened PassDrive
  import opened PassSilence
  import opened PassRace
  import opened Devices
  import opened Fabric
  import opened PassDevices

  /** The pass has read the object and gone straight to verify this plan. */
  predicate Skips(w: World, key: Key, plan: Plan) {
    var pass := PassOf(w, key);
    pass.Verifying? && pass.verifyMode.PlainVerify? && pass.work.sameRender && pass.work.plan == plan
  }

  /** The object as it was recorded, whatever its conditions and generation say. */
  ghost predicate SameRecorded(obj: Service, obj': Service) {
    SameRecord(obj'.status, obj.status) && obj'.spec == obj.spec && obj'.finalizer == obj.finalizer && obj'.deleting == obj.deleting
  }

  /** Over an object with the record of its own spec a pass skips its apply. */
  lemma RecordedReads(site: Site, w: World, key: Key, t: Turn)
    requires RenderOk(site) && t.gate.None? && key in w.objects && PassOf(w, key).Idle?
    requires w.objects[key].finalizer && !w.objects[key].deleting && Reusable(site, w.objects[key], site.corr(key))
    requires w.objects[key].status.appliedSpec.Some?
    requires IsRender(site, w.objects[key].spec, w.objects[key].status.allocations.value, w.objects[key].status.configHashes)
    ensures var work := OwnWork(site, key, w.objects[key]);
      work.order != [] && Step(site, w, key, t) == At(w, key, Verifying(work, work.order, [], PlainVerify))
  {
    NeutralPlan(site, key, w.objects[key], t.now);
    assert Step(site, w, key, t) == At(w, key, GoPlan(site, key, w.objects[key], w.objects[key].status.allocations.value, t.now));
  }

  lemma SettledAgain(site: Site, key: Key, obj: Service, obj': Service)
    requires Settled(site, key, obj) && SameRecorded(obj, obj')
    ensures obj'.finalizer && !obj'.deleting && Reusable(site, obj', site.corr(key)) && obj'.status.appliedSpec.Some?
    ensures IsRender(site, obj'.spec, obj'.status.allocations.value, obj'.status.configHashes)
  {
  }

  // ---- an update that fails its check ----------------------------------------------------------

  /** The first node's check fails, and the refusal is written. */
  lemma UpdateRefused(site: Site, w: World, key: Key, t: Turn, work: Work) returns (w': World)
    requires Good(t) && key in w.objects && work.svc == w.objects[key] && work.order != []
    requires PassOf(w, key) == GoVerify(site, work, work.order, [], UpdateVerify, t.now)
    ensures w' == Run(site, w, [PassStep(key, Failing(t, work.svc.spec.preferredSpine)), PassStep(key, t)])
    ensures PassOf(w', key).Idle? && w'.log == w.log + [StatusWrite(key)]
    ensures key in w'.objects && SameRecorded(w.objects[key], w'.objects[key]) && w'.objects[key].generation == w.objects[key].generation
  {
    var f := Failing(t, work.svc.spec.preferredSpine);
    var w1 := CheckRefused(site, w, key, f, work);
    w' := RefusalWritten(site, w1, key, t, Looked(work, [NodeStatus(work.order[0], false)]).svc);
    RunTwo(site, w, PassStep(key, f), PassStep(key, t));
  }

  lemma RunTwo(site: Site, w: World, a: Move, b: Move)
    ensures Run(site, w, [a, b]) == Apply(site, Apply(site, w, a), b)
  {
    assert [a, b] == [a] + [b];
    RunCons(site, w, a, [b]);
    PassDrive.RunOne(site, Apply(site, w, a), b);
  }

  lemma CheckRefused(site: Site, w: World, key: Key, f: Turn, work: Work) returns (w1: World)
    requires f.verify.CheckFails? && work.order != [] && PassOf(w, key) == GoVerify(site, work, work.order, [], UpdateVerify, f.now)
    ensures w1 == Apply(site, w, PassStep(key, f)) && SameStore(w, w1) && w1.log == w.log
    ensures PassOf(w1, key) == Refusing(Looked(work, [NodeStatus(work.order[0], false)]).svc, CheckKind)
  {
    assert [] + [NodeStatus(work.order[0], false)] == [NodeStatus(work.order[0], false)];
    w1 := StepVerifying(site, w, key, work, work.order, [], UpdateVerify, f);
    assert Step(site, w, key, f) == w1;
  }

  lemma RefusalWritten(site: Site, w: World, key: Key, t: Turn, svc: Service) returns (w': World)
    requires t.api.Done? && key in w.objects && SameRecord(svc.status, w.objects[key].status) && PassOf(w, key).Refusing? && PassOf(w, key).svc == svc
    ensures w' == Apply(site, w, PassStep(key, t)) && PassOf(w', key).Idle? && w'.log == w.log + [StatusWrite(key)]
    ensures key in w'.objects && SameRecorded(w.objects[key], w'.objects[key]) && w'.objects[key].generation == w.objects[key].generation
  {
    w' := StepRefusing(w, key, svc, PassOf(w, key).kind, t);
  }

  /** The moves of the run. */
  predicate BackMove(m: Move, key: Key, t: Turn, a: ServiceSpec, b: ServiceSpec) {
    m == Edit(key, a) || m == Edit(key, b) || m == PassStep(key, t) || m == PassStep(key, Failing(t, b.preferredSpine))
  }

  /** At every site, over every settled service: an edit to a spec of other hashes,
      whose removals and applies are all accepted and whose first check fails; the
      refusal is written, and the edit is taken back. The next pass skips its apply,
      although the last ops every node took are those of the edit. */
  lemma EditBackSkips(site: Site, w: World, key: Key, b: ServiceSpec, t: Turn) returns (moves: seq<Move>, w2: World)
    requires RenderOk(site) && key in w.objects && Settled(site, key, w.objects[key]) && PassOf(w, key).Idle? && Good(t)
    requires var alloc := w.objects[key].status.allocations.value;
      site.render(b, alloc).Some? && !HashesEqual(w.objects[key].status.configHashes, PlanHashes(site, site.render(b, alloc).value))
    ensures forall m :: m in moves ==> BackMove(m, key, t, w.objects[key].spec, b)
    ensures w2 == Run(site, w, moves) && PassOf(w2, key).Idle? && key in w2.objects && SameRecorded(w.objects[key], w2.objects[key])
    ensures var alloc := w.objects[key].status.allocations.value;
      var prev, next, w' := site.render(w.objects[key].spec, alloc), site.render(b, alloc).value, Step(site, w2, key, t);
      && prev.Some? && w2.log == w.log + (UpdateLog(key, prev.value, next) + [StatusWrite(key)])
      && w'.log == w2.log && Skips(w', key, prev.value)
      && forall n :: n in next.nodes ==> LastTook(w'.log, key, n, next.nodes[n].ops)
  {
    var a, obj := w.objects[key].spec, Edited(w.objects[key], b);
    var work := UpdateWork(site, key, obj);
    var prev := EditStartsUpdate(site, w, key, b, t);
    var sent, w1 := SentAndRefused(site, w, key, b, t, work, prev);
    moves := [Edit(key, b)] + sent + [Edit(key, a)];
    w2 := Apply(site, w1, Edit(key, a));
    RunThrough(site, w, [Edit(key, b)] + sent, Edit(key, a));
    TakenBack(site, w, w1, key, a, b);
    BackMoves(moves, sent, key, t, a, b);
    SettledSkips(site, w.objects[key], w2, key, t);
    UpdateIsLast(w.log, key, prev, work.plan);
  }

  lemma BackMoves(moves: seq<Move>, sent: seq<Move>, key: Key, t: Turn, a: ServiceSpec, b: ServiceSpec)
    requires moves == [Edit(key, b)] + sent + [Edit(key, a)]
    requires forall m :: m in sent ==> m == PassStep(key, t) || m == PassStep(key, Failing(t, b.preferredSpine))
    ensures forall m :: m in moves ==> BackMove(m, key, t, a, b)
  {
  }

  lemma TakenBack(site: Site, w: World, w1: World, key: Key, a: ServiceSpec, b: ServiceSpec)
    requires key in w.objects && key in w1.objects && a == w.objects[key].spec && SameRecorded(Edited(w.objects[key], b), w1.objects[key])
    ensures var w2 := Apply(site, w1, Edit(key, a));
      key in w2.objects && SameRecorded(w.objects[key], w2.objects[key]) && w2.log == w1.log && PassOf(w2, key) == PassOf(w1, key)
  {
  }

  /** Over the record of a settled object a pass skips its apply. */
  lemma SettledSkips(site: Site, obj: Service, w: World, key: Key, t: Turn)
    requires RenderOk(site) && t.gate.None? && key in w.objects && PassOf(w, key).Idle?
    requires Settled(site, key, obj) && SameRecorded(obj, w.objects[key])
    ensures var work, w' := OwnWork(site, key, w.objects[key]), Step(site, w, key, t);
      work.order != [] && w' == At(w, key, Verifying(work, work.order, [], PlainVerify))
    ensures var w' := Step(site, w, key, t);
      w'.log == w.log && Skips(w', key, site.render(obj.spec, obj.status.allocations.value).value)
  {
    SettledAgain(site, key, obj, w.objects[key]);
    RecordedReads(site, w, key, t);
  }

  lemma RunThrough(site: Site, w: World, before: seq<Move>, m: Move)
    ensures Run(site, w, before + [m]) == Apply(site, Run(site, w, before), m)
  {
    RunConcat(site, w, before, [m]);
    PassDrive.RunOne(site, Run(site, w, before), m);
  }

  lemma SentAndRefused(site: Site, w: World, key: Key, b: ServiceSpec, t: Turn, work: Work, prev: Plan) returns (moves: seq<Move>, w': World)
    requires RenderOk(site) && Good(t) && key in w.objects && work.key == key && work.svc == Edited(w.objects[key], b)
    requires UpdateStarts(site, Apply(site, w, Edit(key, b)), key, t, work, prev) && work.order == PlanOrder(work.plan)
    requires site.render(b, work.alloc) == Some(work.plan)
    ensures forall m :: m in moves ==> m == PassStep(key, t) || m == PassStep(key, Failing(t, b.preferredSpine))
    ensures w' == Run(site, w, [Edit(key, b)] + moves) && PassOf(w', key).Idle?
    ensures key in w'.objects && SameRecorded(Edited(w.objects[key], b), w'.objects[key])
    ensures w'.log == w.log + (UpdateLog(key, prev, work.plan) + [StatusWrite(key)])
  {
    hide Run, UpdateLog, UpdateStarts, GoVerify;
    var w1 := Apply(site, w, Edit(key, b));
    var first := DriveSent(site, w1, key, t, work, prev);
    OrderNotEmpty(site, b, work);
    w' := UpdateRefused(site, Run(site, w1, first), key, t, work);
    var last := [PassStep(key, Failing(t, b.preferredSpine)), PassStep(key, t)];
    moves := first + last;
    RunParts(site, w, Edit(key, b), first, last);
    LogsJoin(w.log, UpdateLog(key, prev, work.plan), [StatusWrite(key)]);
  }

  lemma OrderNotEmpty(site: Site, spec: ServiceSpec, work: Work)
    requires RenderOk(site) && site.render(spec, work.alloc) == Some(work.plan) && work.order == PlanOrder(work.plan)
    ensures work.order != []
  {
    var n :| n in work.plan.nodes;
    assert n in PlanOrder(work.plan);
  }

  /** After an update every node of the new plan has taken its ops last. */
  lemma UpdateIsLast(log: seq<Event>, key: Key, prev: Plan, next: Plan)
    ensures forall n :: n in next.nodes ==> LastTook(log + (UpdateLog(key, prev, next) + [StatusWrite(key)]), key, n, next.nodes[n].ops)
  {
    forall n | n in next.nodes ensures LastTook(log + (UpdateLog(key, prev, next) + [StatusWrite(key)]), key, n, next.nodes[n].ops) {
      UpdateIsLastOn(log, key, prev, next, n);
    }
  }

  lemma UpdateIsLastOn(log: seq<Event>, key: Key, prev: Plan, next: Plan, n: Node)
    requires n in next.nodes
    ensures LastTook(log + (UpdateLog(key, prev, next) + [StatusWrite(key)]), key, n, next.nodes[n].ops)
  {
    var r, a := RollbackLog(key, prev, RemovalNodes(prev, next)), ApplyLog(key, next, PlanOrder(next));
    LastOfApply(log + r, key, next, PlanOrder(next), n);
    LastCallNext((log + r) + a, StatusWrite(key), key, n);
    LogsJoin(log, r, a);
    LogsJoin(log, r + a, [StatusWrite(key)]);
  }

  /** Where the run has written, the nodes hold exactly what the edit rendered, and
      nothing that only the recorded render makes. */
  lemma EditBackHolds(log: seq<Event>, key: Key, prev: Plan, next: Plan, n: Node, cuts: nat -> nat)
    requires n in next.nodes && PlanCovered(prev)
    ensures var d := Held(log + (UpdateLog(key, prev, next) + [StatusWrite(key)]), n, cuts);
      d == Updated(prev, next, n, Held(log, n, cuts)) && ExactOn(prev, next, n, d)
  {
    var sent := log + UpdateLog(key, prev, next);
    assert log + (UpdateLog(key, prev, next) + [StatusWrite(key)]) == sent + [StatusWrite(key)];
    HeldNext(sent, StatusWrite(key), n, cuts);
    HeldUpdated(log, key, prev, next, n, cuts);
    forall c | Makes(OpsOn(prev, n), c) || Makes(OpsOn(next, n), c)
      ensures Look(Updated(prev, next, n, Held(log, n, cuts)), c) == EntryLeft(OpsOn(next, n), c)
    {
      UpdateIsExact(prev, next, n, Held(log, n, cuts), c);
    }
  }

  // ---- a repair that a node rejects --------------------------------------------------------------

  function Rejecting(t: Turn): Turn {
    t.(exec := Rejected)
  }

  predicate RepairMove(m: Move, key: Key, t: Turn, spine: string) {
    m == PassStep(key, t) || m == PassStep(key, Failing(t, spine)) || m == PassStep(key, Rejecting(t))
  }

  /** The calls of a repair that the first node rejects. */
  function RejectedRepair(key: Key, plan: Plan): seq<Event>
    requires PlanOrder(plan) != []
  {
    [StatusWrite(key), ApplyCall(key, PlanOrder(plan)[0], OpsOn(plan, PlanOrder(plan)[0]), Rejected)]
    + RollbackLog(key, plan, WithRollback(plan, PlanOrder(plan))) + [StatusWrite(key)]
  }

  /** At every site, over every settled service: a check fails, the repair is rejected
      by the first node, every rollback is accepted and the refusal is written. The
      next pass skips its apply, although the last call on every node that has a
      rollback is that rollback. */
  lemma FailedRepairSkips(site: Site, w: World, key: Key, t: Turn) returns (moves: seq<Move>, w2: World)
    requires RenderOk(site) && key in w.objects && Settled(site, key, w.objects[key]) && PassOf(w, key).Idle? && Good(t)
    ensures forall m :: m in moves ==> RepairMove(m, key, t, w.objects[key].spec.preferredSpine)
    ensures w2 == Run(site, w, moves)
    ensures var plan := OwnWork(site, key, w.objects[key]).plan; var w' := Step(site, w2, key, t);
      && PlanOrder(plan) != [] && w2.log == w.log + RejectedRepair(key, plan)
      && w'.log == w2.log && Skips(w', key, plan)
      && forall n :: n in plan.nodes && plan.nodes[n].rollback != [] ==>
           LastCall(w'.log, key, n) == Some(ApplyCall(key, n, plan.nodes[n].rollback, Accepted))
  {
    var obj := w.objects[key];
    var work := OwnWork(site, key, obj);
    RipeReads(site, w, key, t);
    moves, w2 := RepairFails(site, w, key, t, work);
    SettledSkips(site, obj, w2, key, t);
    RepairIsLast(w.log, key, work.plan);
  }

  lemma RipeReads(site: Site, w: World, key: Key, t: Turn)
    requires key in w.objects && Ripe(site, key, w.objects[key]) && PassOf(w, key).Idle? && t.gate.None?
    ensures var work := OwnWork(site, key, w.objects[key]);
      work.order != [] && Apply(site, w, PassStep(key, t)) == At(w, key, Verifying(work, work.order, [], PlainVerify))
  {
    RipeStart(site, w, key, t);
  }

  lemma RepairFails(site: Site, w: World, key: Key, t: Turn, work: Work) returns (moves: seq<Move>, w2: World)
    requires Good(t) && key in w.objects && work.svc == w.objects[key] && work.sameRender
    requires work.order != [] && work.order == PlanOrder(work.plan)
    requires Apply(site, w, PassStep(key, t)) == At(w, key, Verifying(work, work.order, [], PlainVerify))
    ensures forall m :: m in moves ==> RepairMove(m, key, t, work.svc.spec.preferredSpine)
    ensures w2 == Run(site, w, moves) && PassOf(w2, key).Idle? && w2.log == w.log + RejectedRepair(key, work.plan)
    ensures key in w2.objects && SameRecorded(w.objects[key], w2.objects[key])
  {
    hide Run, Apply, RejectedRepair;
    var w1 := Apply(site, w, PassStep(key, t));
    var first, active := DriveToNote(site, w1, key, t, work);
    var rest;
    rest, w2 := RejectRepair(site, Run(site, w1, first), key, t, FailedLook(work), active);
    moves := [PassStep(key, t)] + (first + rest);
    RunParts(site, w, PassStep(key, t), first, rest);
    RepairMoves(moves, first, rest, key, t, work.svc.spec.preferredSpine);
  }

  lemma RepairMoves(moves: seq<Move>, first: seq<Move>, rest: seq<Move>, key: Key, t: Turn, spine: string)
    requires moves == [PassStep(key, t)] + (first + rest) && AllSteps(first, key, Failing(t, spine))
    requires forall m :: m in rest ==> m == PassStep(key, t) || m == PassStep(key, Rejecting(t))
    ensures forall m :: m in moves ==> RepairMove(m, key, t, spine)
  {
  }

  /** From the drift note to the written refusal. */
  lemma RejectRepair(site: Site, w: World, key: Key, t: Turn, work: Work, active: string) returns (moves: seq<Move>, w': World)
    requires Good(t) && key in w.objects && PassOf(w, key) == NotingDrift(work, active) && work.order != [] && work.order == PlanOrder(work.plan)
    requires SameRecord(work.svc.status, w.objects[key].status)
    ensures forall m :: m in moves ==> m == PassStep(key, t) || m == PassStep(key, Rejecting(t))
    ensures w' == Run(site, w, moves) && PassOf(w', key).Idle? && w'.log == w.log + RejectedRepair(key, work.plan)
    ensures key in w'.objects && SameRecorded(w.objects[key], w'.objects[key])
  {
    hide Run, Apply, RejectedRepair, PlanOrder, WithRollback;
    var s, r := PassStep(key, t), PassStep(key, Rejecting(t));
    var w1, work1 := NoteLands(site, w, key, t, work, active);
    var w2 := RepairRejected(site, w1, key, t, work1, active);
    var walk := DriveRoll(site, w2, key, t, work1, work.plan, WithRollback(work.plan, PlanOrder(work.plan)), DriftRoll);
    var w3 := Run(site, w2, walk);
    w' := RefusalWritten(site, w3, key, t, work1.svc);
    moves := [s] + ([r] + (walk + [s]));
    RunCons(site, w, s, [r] + (walk + [s]));
    RunCons(site, w1, r, walk + [s]);
    RunThrough(site, w2, walk, s);
    RepairLog(w.log, key, work.plan);
    RejectMoves(moves, walk, key, t);
  }

  lemma RejectMoves(moves: seq<Move>, walk: seq<Move>, key: Key, t: Turn)
    requires moves == [PassStep(key, t)] + ([PassStep(key, Rejecting(t))] + (walk + [PassStep(key, t)])) && AllSteps(walk, key, t)
    ensures forall m :: m in moves ==> m == PassStep(key, t) || m == PassStep(key, Rejecting(t))
  {
  }

  lemma RepairLog(log: seq<Event>, key: Key, plan: Plan)
    requires PlanOrder(plan) != []
    ensures var n := PlanOrder(plan)[0];
      log + [StatusWrite(key)] + [ApplyCall(key, n, OpsOn(plan, n), Rejected)]
        + RollbackLog(key, plan, WithRollback(plan, PlanOrder(plan))) + [StatusWrite(key)]
      == log + RejectedRepair(key, plan)
  {
    var n := PlanOrder(plan)[0];
    FourLogs(log, StatusWrite(key), ApplyCall(key, n, OpsOn(plan, n), Rejected),
             RollbackLog(key, plan, WithRollback(plan, PlanOrder(plan))), [StatusWrite(key)]);
  }

  lemma FourLogs(log: seq<Event>, x: Event, y: Event, r: seq<Event>, z: seq<Event>)
    ensures log + [x] + [y] + r + z == log + ([x, y] + r + z)
  {
  }

  lemma NoteLands(site: Site, w: World, key: Key, t: Turn, work: Work, active: string) returns (w': World, work': Work)
    requires t.api.Done? && key in w.objects && PassOf(w, key) == NotingDrift(work, active)
    requires SameRecord(work.svc.status, w.objects[key].status)
    ensures w' == Apply(site, w, PassStep(key, t)) && w'.log == w.log + [StatusWrite(key)]
    ensures key in w'.objects && SameRecorded(w.objects[key], w'.objects[key]) && work' == work.(svc := w'.objects[key])
    ensures PassOf(w', key) == GoApply(site, work', work.plan, work.order, DriftApply(active), t.now)
  {
    hide GoApply;
    w' := StepNotingDrift(site, w, key, work, active, t);
    work' := work.(svc := w'.objects[key]);
  }

  lemma RepairRejected(site: Site, w: World, key: Key, t: Turn, work: Work, active: string) returns (w': World)
    requires work.order != [] && work.order == PlanOrder(work.plan)
    requires PassOf(w, key) == GoApply(site, work, work.plan, work.order, DriftApply(active), t.now)
    ensures w' == Apply(site, w, PassStep(key, Rejecting(t))) && SameStore(w, w')
    ensures w'.log == w.log + [ApplyCall(key, work.order[0], OpsOn(work.plan, work.order[0]), Rejected)]
    ensures PassOf(w', key) == GoRoll(site, work, work.plan, WithRollback(work.plan, PlanOrder(work.plan)), DriftRoll, t.now)
  {
    hide GoRoll, WithRollback;
    w' := StepApplying(site, w, key, work, work.plan, work.order, DriftApply(active), Rejecting(t));
    assert Step(site, w, key, Rejecting(t)) == w';
  }

  /** The rollbacks come last. */
  lemma RepairIsLast(log: seq<Event>, key: Key, plan: Plan)
    requires PlanOrder(plan) != []
    ensures forall n :: n in plan.nodes && plan.nodes[n].rollback != [] ==>
      LastCall(log + RejectedRepair(key, plan), key, n) == Some(ApplyCall(key, n, plan.nodes[n].rollback, Accepted))
  {
    var n0, rolled := PlanOrder(plan)[0], WithRollback(plan, PlanOrder(plan));
    var start := log + [StatusWrite(key)] + [ApplyCall(key, n0, OpsOn(plan, n0), Rejected)];
    RepairLog(log, key, plan);
    forall n | n in plan.nodes && plan.nodes[n].rollback != []
      ensures LastCall(log + RejectedRepair(key, plan), key, n) == Some(ApplyCall(key, n, plan.nodes[n].rollback, Accepted))
    {
      LastOfRollback(start, key, plan, rolled, n);
      LastCallNext(start + RollbackLog(key, plan, rolled), StatusWrite(key), key, n);
    }
  }

  /** Where the rollbacks went, the nodes hold nothing of the plan, whatever landed
      of the rejected call. */
  lemma RolledBackHolds(log: seq<Event>, key: Key, plan: Plan, n: Node, cuts: nat -> nat, c: Cell)
    requires PlanOrder(plan) != [] && n in plan.nodes && plan.nodes[n].rollback != [] && PlanCovered(plan)
    requires Makes(plan.nodes[n].ops, c)
    ensures c !in Held(log + RejectedRepair(key, plan), n, cuts)
  {
    var d := RepairUndone(log, key, plan, n, cuts);
    LastWriterWins(d, Atoms(plan.nodes[n].rollback), c);
  }

  lemma RepairUndone(log: seq<Event>, key: Key, plan: Plan, n: Node, cuts: nat -> nat) returns (before: Device)
    requires PlanOrder(plan) != [] && n in plan.nodes && plan.nodes[n].rollback != []
    ensures Held(log + RejectedRepair(key, plan), n, cuts) == RolledBack(plan, n, before)
  {
    hide Held, RejectedRepair, RollbackLog, RolledBack;
    var n0, rolled := PlanOrder(plan)[0], WithRollback(plan, PlanOrder(plan));
    var start := log + [StatusWrite(key)] + [ApplyCall(key, n0, OpsOn(plan, n0), Rejected)];
    RepairLog(log, key, plan);
    RolledOnce(plan, PlanOrder(plan));
    RolledIs(start, key, plan, rolled, n, cuts);
    before := Held(start, n, cuts);
  }

  lemma {:induction false} RolledOnce(plan: Plan, order: seq<Node>)
    requires Distinct(order) && forall n :: n in order ==> n in plan.nodes
    ensures Distinct(WithRollback(plan, order))
  {
    if order != [] { RolledOnce(plan, order[1..]); }
  }

  lemma RolledIs(start: seq<Event>, key: Key, plan: Plan, todo: seq<Node>, n: Node, cuts: nat -> nat)
    requires n in todo && n in plan.nodes && Distinct(todo)
    ensures Held(start + RollbackLog(key, plan, todo) + [StatusWrite(key)], n, cuts) == RolledBack(plan, n, Held(start, n, cuts))
  {
    hide Held, RollbackLog, RolledBack, DoAll, Atoms;
    HeldRolledBack(start, key, plan, todo, n, cuts);
    HeldNext(start + RollbackLog(key, plan, todo), StatusWrite(key), n, cuts);
  }

  // ---- what an edit inside an update leaves --------------------------------------------------------

  /** At every site, over every settled service: an edit to b that is taken back
      before its update's record write is answered, b rendering to other hashes both
      ways. The next pass takes the recorded spec for what is applied and removes
      nothing, so every entry of b's render that the old ops do not touch is still on
      its node when that pass has applied, whatever the calls leave elsewhere. */
  lemma FirstEditStays(site: Site, w: World, key: Key, b: ServiceSpec, t: Turn, n: Node, cuts: nat -> nat, c: Cell)
      returns (moves: seq<Move>, w': World)
    requires SiteOk(site) && RenderOk(site) && key in w.objects && Settled(site, key, w.objects[key]) && PassOf(w, key).Idle? && Good(t)
    requires var alloc := w.objects[key].status.allocations.value; var next := site.render(b, alloc);
      && next.Some? && n in next.value.nodes
      && !HashesEqual(w.objects[key].status.configHashes, PlanHashes(site, next.value))
      && !HashesEqual(PlanHashes(site, next.value), w.objects[key].status.configHashes)
      && var prev := site.render(w.objects[key].spec, alloc).value;
         Makes(next.value.nodes[n].ops, c) && Verdicts(Atoms(OpsOn(prev, n)), c) == Untouched
    ensures w' == Run(site, w, moves) && forall m :: m in moves ==> EditMove(m, key, t, b, w.objects[key].spec)
    ensures var alloc := w.objects[key].status.allocations.value;
      var prev, next := site.render(w.objects[key].spec, alloc).value, site.render(b, alloc).value;
      && PassOf(w', key).Verifying? && PassOf(w', key).verifyMode.UpdateVerify? && PassOf(w', key).work.plan == prev
      && Look(Held(w'.log, n, cuts), c) == EntryLeft(next.nodes[n].ops, c)
  {
    var a, alloc := w.objects[key].spec, w.objects[key].status.allocations.value;
    var prev, next := site.render(a, alloc).value, site.render(b, alloc).value;
    var w1;
    moves, w1, w' := RaceThenPass(site, w, key, b, t, prev, next);
    EditStays(w.log, w1.log, w'.log, key, prev, next, n, cuts, c);
  }

  /** The race, and the pass after it to its verify. */
  lemma RaceThenPass(site: Site, w: World, key: Key, b: ServiceSpec, t: Turn, prev: Plan, next: Plan)
      returns (moves: seq<Move>, w1: World, w': World)
    requires SiteOk(site) && RenderOk(site) && key in w.objects && Settled(site, key, w.objects[key]) && PassOf(w, key).Idle? && Good(t)
    requires var alloc := w.objects[key].status.allocations.value;
      site.render(w.objects[key].spec, alloc) == Some(prev) && site.render(b, alloc) == Some(next)
    requires !HashesEqual(w.objects[key].status.configHashes, PlanHashes(site, next))
    requires !HashesEqual(PlanHashes(site, next), w.objects[key].status.configHashes)
    ensures w' == Run(site, w, moves) && forall m :: m in moves ==> EditMove(m, key, t, b, w.objects[key].spec)
    ensures PassOf(w', key).Verifying? && PassOf(w', key).verifyMode.UpdateVerify? && PassOf(w', key).work.plan == prev
    ensures NoCalls(w.log + UpdateLog(key, prev, next), w1.log) && w'.log == w1.log + ApplyLog(key, prev, PlanOrder(prev))
  {
    hide Run, UpdateLog, ApplyLog, HashesEqual, NoCalls, IsRender, PlanHashes;
    var a := w.objects[key].spec;
    var first;
    first, w1 := EditDuringUpdateBreaksRecord(site, w, key, b, a, t);
    RaceLeaves(site, w.objects[key], w1, key, b, prev, next);
    var second := NothingIsRemoved(site, w1, key, t, prev);
    w' := Run(site, w1, second);
    moves := first + second;
    RunConcat(site, w, first, second);
  }

  /** What the next pass reads after the race. */
  lemma RaceLeaves(site: Site, obj: Service, w1: World, key: Key, b: ServiceSpec, prev: Plan, next: Plan)
    requires Settled(site, key, obj) && site.render(obj.spec, obj.status.allocations.value) == Some(prev)
    requires site.render(b, obj.status.allocations.value) == Some(next)
    requires !HashesEqual(PlanHashes(site, next), obj.status.configHashes)
    requires ReRecorded(site, w1, key, obj.spec, UpdateWork(site, key, Edited(obj, b)))
    requires w1.objects[key] == Edited(Edited(obj, b), obj.spec).(status := w1.objects[key].status)
    ensures var obj1 := w1.objects[key];
      && obj1.finalizer && !obj1.deleting && obj1.status.allocations == obj.status.allocations && Reusable(site, obj1, site.corr(key))
      && obj1.status.appliedSpec == Some(obj1.spec) && site.render(obj1.spec, obj1.status.allocations.value) == Some(prev)
      && !HashesEqual(obj1.status.configHashes, PlanHashes(site, prev))
  {
  }

  /** The next pass removes nothing and applies the recorded spec's render. */
  lemma NothingIsRemoved(site: Site, w: World, key: Key, t: Turn, plan: Plan) returns (moves: seq<Move>)
    requires RenderOk(site) && Good(t) && key in w.objects && PassOf(w, key).Idle? && w.objects[key].finalizer && !w.objects[key].deleting
    requires w.objects[key].status.allocations.Some? && Reusable(site, w.objects[key], site.corr(key))
    requires w.objects[key].status.appliedSpec == Some(w.objects[key].spec)
    requires site.render(w.objects[key].spec, w.objects[key].status.allocations.value) == Some(plan)
    requires !HashesEqual(w.objects[key].status.configHashes, PlanHashes(site, plan))
    ensures AllSteps(moves, key, t)
    ensures var w' := Run(site, w, moves);
      && w'.log == w.log + ApplyLog(key, plan, PlanOrder(plan)) && PassOf(w', key).Verifying? && PassOf(w', key).verifyMode.UpdateVerify?
      && PassOf(w', key).work.plan == plan
  {
    var work := UpdateWork(site, key, w.objects[key]);
    NothingLost(plan);
    UpdateRead(site, w, key, t, plan);
    OrderNotEmpty(site, w.objects[key].spec, work);
    moves := DriveSent(site, w, key, t, work, plan);
    assert RollbackLog(key, plan, []) + ApplyLog(key, plan, PlanOrder(plan)) == ApplyLog(key, plan, PlanOrder(plan));
  }

  lemma NothingLost(plan: Plan)
    ensures RemovalNodes(plan, plan) == []
  {
    var lost := set n | n in plan.nodes && LostAnOp(plan, plan, n);
    assert lost == {};
  }

  lemma UpdateRead(site: Site, w: World, key: Key, t: Turn, plan: Plan)
    requires t.gate.None? && key in w.objects && PassOf(w, key).Idle? && w.objects[key].finalizer && !w.objects[key].deleting
    requires w.objects[key].status.allocations.Some? && Reusable(site, w.objects[key], site.corr(key))
    requires w.objects[key].status.appliedSpec == Some(w.objects[key].spec)
    requires site.render(w.objects[key].spec, w.objects[key].status.allocations.value) == Some(plan)
    requires !HashesEqual(w.objects[key].status.configHashes, PlanHashes(site, plan))
    ensures UpdateStarts(site, w, key, t, UpdateWork(site, key, w.objects[key]), plan)
  {
    assert Step(site, w, key, t) == Start(site, w, key, t);
  }

  lemma EditStays(log: seq<Event>, log1: seq<Event>, log2: seq<Event>, key: Key, prev: Plan, next: Plan, n: Node, cuts: nat -> nat, c: Cell)
    requires NoCalls(log + UpdateLog(key, prev, next), log1) && log2 == log1 + ApplyLog(key, prev, PlanOrder(prev))
    requires n in next.nodes && Makes(next.nodes[n].ops, c) && Verdicts(Atoms(OpsOn(prev, n)), c) == Untouched
    ensures Look(Held(log2, n, cuts), c) == EntryLeft(next.nodes[n].ops, c)
  {
    HeldKept(log + UpdateLog(key, prev, next), log1, n, cuts);
    HeldUpdated(log, key, prev, next, n, cuts);
    LastWriterWins(Removed(prev, next, n, Held(log, n, cuts)), Atoms(OpsOn(next, n)), c);
    if n in prev.nodes {
      HeldApplied(log1, key, prev, PlanOrder(prev), n, cuts);
      LastWriterWins(Held(log1, n, cuts), Atoms(OpsOn(prev, n)), c);
    } else {
      HeldOff(log1, key, prev, PlanOrder(prev), n, cuts);
    }
  }

  lemma {:induction false} HeldKept(log: seq<Event>, log': seq<Event>, n: Node, cuts: nat -> nat)
    requires NoCalls(log, log')
    ensures Held(log', n, cuts) == Held(log, n, cuts)
    decreases |log'|
  {
    if |log'| > |log| {
      HeldKept(log, log'[..|log'| - 1], n, cuts);
    } else {
      assert log' == log;
    }
  }
}
