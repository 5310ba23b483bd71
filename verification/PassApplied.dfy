/** The calls on the devices against the record: exactly when the ops a service's
    pass would skip are the ops it applied last on a node. The hash test looks at
    the record alone, and several ways out of a pass leave a node with other ops,
    or with a rollback, under an unchanged record. */
module PassApplied {
  import opened Text
  import opened ServiceObjects
  import opened PassMachine
  import opened PassInvariant
  import opened PassRuns
  import opened PassSafety
  import opened PassRecord
  import opened PassDrive

  // ---- the last call on a node ----------------------------------------------------------

  predicate CallsOn(e: Event, key: Key, n: Node) {
    e.ApplyCall? && e.key == key && e.node == n
  }

  predicate IsOn(call: Option<Event>, n: Node) {
    call.Some? && call.value.ApplyCall? && call.value.node == n
  }

  /** The service's last call on the node. */
  function LastCall(log: seq<Event>, key: Key, n: Node): Option<Event>
    decreases |log|
  {
    if log == [] then None
    else if CallsOn(log[|log| - 1], key, n) then Some(log[|log| - 1])
    else LastCall(log[..|log| - 1], key, n)
  }

  lemma LastCallNext(log: seq<Event>, e: Event, key: Key, n: Node)
    ensures LastCall(log + [e], key, n) == if CallsOn(e, key, n) then Some(e) else LastCall(log, key, n)
  {
    assert (log + [e])[..|log|] == log;
  }

  /** The call was accepted, and its ops have this hash. */
  predicate Took(site: Site, call: Option<Event>, h: int) {
    call.Some? && call.value.ApplyCall? && call.value.answer.Accepted? && site.hash(call.value.ops) == h
  }

  predicate RecordedOn(w: World, key: Key, n: Node) {
    key in w.objects && n in w.objects[key].status.configHashes
  }

  /** What the service last sent to the node went through, and is what is recorded. */
  predicate OnRecord(site: Site, w: World, key: Key, n: Node) {
    RecordedOn(w, key, n) && Took(site, LastCall(w.log, key, n), w.objects[key].status.configHashes[n])
  }

  // ---- the branches -----------------------------------------------------------------------

  /** The call the pass makes at this step. */
  function CallOf(w: World, key: Key, t: Turn): Option<Event> {
    match PassOf(w, key)
    case Removing(_, prev, todo) => if todo == [] then None else Some(ApplyCall(key, todo[0], RollbackOn(prev, todo[0]), t.exec))
    case Applying(_, plan, todo, _) => if todo == [] then None else Some(ApplyCall(key, todo[0], OpsOn(plan, todo[0]), t.exec))
    case RollingBack(_, plan, todo, _) => if todo == [] then None else Some(ApplyCall(key, todo[0], RollbackOn(plan, todo[0]), t.exec))
    case FinalRollback(_, plan, todo, _) => if todo == [] then None else Some(ApplyCall(key, todo[0], RollbackOn(plan, todo[0]), t.exec))
    case _ => None
  }

  /** The ways off the record: the removal and the apply of an update, the two
      rollbacks over a record, a restore or a repair that the node does not accept,
      and the rollback of a delete. */
  predicate WayOff(pass: Pass, exec: Exec, other: bool) {
    match pass
    case Removing(_, _, _) => true
    case Applying(_, _, _, UpdateApply(_)) => true
    case Applying(_, _, _, RestoreApply) => !exec.Accepted? || other
    case Applying(_, _, _, DriftApply(_)) => !exec.Accepted?
    case RollingBack(_, _, _, mode) => mode.UpdateRoll? || mode.DriftRoll?
    case FinalRollback(_, _, _, _) => true
    case _ => false
  }

  /** A step that takes one of those ways on a recorded node, with something else
      than an accepted apply of the recorded ops. */
  predicate Strays(site: Site, w: World, key: Key, n: Node, t: Turn) {
    && RecordedOn(w, key, n) && IsOn(CallOf(w, key, t), n)
    && (var h, call := w.objects[key].status.configHashes[n], CallOf(w, key, t);
        !Took(site, call, h) && WayOff(PassOf(w, key), t.exec, site.hash(call.value.ops) != h))
  }

  /** A record that lands at the end of a pass that applied. */
  predicate Lands(w: World, key: Key, t: Turn) {
    Records(w, key, t) && !PassOf(w, key).work.sameRender
  }

  /** What brings the node back: such a record, or an accepted apply of the recorded ops. */
  predicate Mends(site: Site, w: World, key: Key, n: Node, t: Turn) {
    || Lands(w, key, t)
    || (RecordedOn(w, key, n) && IsOn(CallOf(w, key, t), n)
        && Took(site, CallOf(w, key, t), w.objects[key].status.configHashes[n]))
  }

  /** Move i left the node off its record, and no move up to the end brings it back. */
  ghost predicate LeftOff(site: Site, moves: seq<Move>, key: Key, n: Node, i: nat) {
    && i < |moves| && Own(moves[i], key) && Strays(site, Upto(site, moves, i), key, n, moves[i].turn)
    && forall k :: i < k < |moves| ==> !MendsAt(site, moves, key, n, k)
  }

  ghost predicate MendsAt(site: Site, moves: seq<Move>, key: Key, n: Node, k: nat)
    requires k < |moves|
  {
    Own(moves[k], key) && Mends(site, Upto(site, moves, k), key, n, moves[k].turn)
  }

  // ---- what a pass at work has sent ----------------------------------------------------------

  /** Every node of these hashes but those still to do took its ops last. */
  ghost predicate TookBut(site: Site, log: seq<Event>, key: Key, hashes: map<Node, int>, todo: seq<Node>) {
    forall n :: n in hashes && n !in todo ==> Took(site, LastCall(log, key, n), hashes[n])
  }

  predicate WorkTracked(site: Site, st: Status, work: Work) {
    && work.hashes == PlanHashes(site, work.plan) && work.order == PlanOrder(work.plan)
    && (work.sameRender ==> HashesEqual(st.configHashes, work.hashes))
  }

  /** The previous plan is the recorded spec's, under the identifiers of this pass. */
  predicate IsPrev(site: Site, st: Status, work: Work, prev: Plan) {
    st.appliedSpec.Some? && site.render(st.appliedSpec.value, work.alloc) == Some(prev)
  }

  ghost predicate PassTracked(site: Site, key: Key, st: Status, log: seq<Event>, pass: Pass) {
    HasWork(pass) ==>
      && WorkTracked(site, st, pass.work)
      && match pass
         case Removing(work, prev, _) => !work.sameRender && IsPrev(site, st, work, prev)
         case Applying(work, plan, todo, mode) => ModeTracked(site, key, st, log, work, plan, todo, mode)
         case RollingBack(work, plan, _, mode) => mode.UpdateRoll? ==> IsPrev(site, st, work, plan)
         case Verifying(work, _, _, mode) => VerifyModeTracked(site, key, log, work, mode)
         case RecordingUpdate(work, _) => VerifyModeTracked(site, key, log, work, UpdateVerify)
         case NotingDrift(work, _) => work.sameRender
         case _ => !pass.work.sameRender ==> TookBut(site, log, key, pass.work.hashes, [])
  }

  ghost predicate VerifyModeTracked(site: Site, key: Key, log: seq<Event>, work: Work, mode: VerifyMode) {
    (!work.sameRender ==> TookBut(site, log, key, work.hashes, [])) && (mode.UpdateVerify? ==> !work.sameRender)
  }

  ghost predicate ModeTracked(site: Site, key: Key, st: Status, log: seq<Event>, work: Work, plan: Plan, todo: seq<Node>, mode: ApplyMode) {
    match mode
    case FirstApply => plan == work.plan && TookBut(site, log, key, work.hashes, todo)
    case UpdateApply(prev) => !work.sameRender && plan == work.plan && TookBut(site, log, key, work.hashes, todo) && IsPrev(site, st, work, prev)
    case RestoreApply => IsPrev(site, st, work, plan)
    case DriftApply(_) => plan == work.plan && work.sameRender && forall n :: n in todo ==> n in plan.nodes
  }

  /** One service: nothing is recorded before identifiers are, and its pass. */
  ghost predicate Tracked(site: Site, w: World, key: Key) {
    key in w.objects ==>
      && (w.objects[key].status.allocations.None? ==> w.objects[key].status.configHashes == map[])
      && PassTracked(site, key, w.objects[key].status, w.log, PassOf(w, key))
  }

  // ---- stages ----------------------------------------------------------------------------------

  lemma RecordTracked(site: Site, key: Key, st: Status, log: seq<Event>, work: Work, dataPath: Option<int>, active: string, now: int)
    requires WorkTracked(site, st, work) && (!work.sameRender ==> TookBut(site, log, key, work.hashes, []))
    ensures PassTracked(site, key, st, log, GoRecord(site, work, dataPath, active, now))
  {
    var pass := GoRecord(site, work, dataPath, active, now);
    assert pass.Idle? || (pass.Recording? && pass.work == work);
  }

  lemma ReadyTracked(site: Site, key: Key, st: Status, log: seq<Event>, work: Work, active: string, now: int)
    requires WorkTracked(site, st, work) && (!work.sameRender ==> TookBut(site, log, key, work.hashes, []))
    ensures PassTracked(site, key, st, log, GoReady(site, work, active, now))
  {
    if work.svc.status.dataPath.Some? { RecordTracked(site, key, st, log, work, work.svc.status.dataPath, active, now); }
  }

  lemma PathTracked(site: Site, key: Key, st: Status, log: seq<Event>, work: Work, failed: Option<Kind>, active: string, now: int)
    requires WorkTracked(site, st, work) && (!work.sameRender ==> TookBut(site, log, key, work.hashes, []))
    ensures PassTracked(site, key, st, log, AfterPath(site, work, failed, active, now))
  {
    if failed.None? { ReadyTracked(site, key, st, log, work, active, now); }
  }

  lemma VerifiedTracked(site: Site, key: Key, st: Status, log: seq<Event>, work: Work, seen: seq<NodeStatus>, failed: Option<Kind>, mode: VerifyMode, now: int)
    requires WorkTracked(site, st, work) && VerifyModeTracked(site, key, log, work, mode)
    ensures PassTracked(site, key, st, log, AfterVerify(site, work, seen, failed, mode, now))
  {
    var work' := work.(svc := work.svc.(status := work.svc.status.(nodes := seen)));
    match mode
    case PlainVerify => PathTracked(site, key, st, log, work', failed, "", now);
    case UpdateVerify =>
    case DriftVerify(active) => ReadyTracked(site, key, st, log, work', active, now);
  }

  lemma VerifyTracked(site: Site, key: Key, st: Status, log: seq<Event>, work: Work, todo: seq<Node>, seen: seq<NodeStatus>, mode: VerifyMode, now: int)
    requires WorkTracked(site, st, work) && VerifyModeTracked(site, key, log, work, mode)
    ensures PassTracked(site, key, st, log, GoVerify(site, work, todo, seen, mode, now))
  {
    if todo == [] { VerifiedTracked(site, key, st, log, work, seen, None, mode, now); }
  }

  lemma ApplyTracked(site: Site, key: Key, st: Status, log: seq<Event>, work: Work, plan: Plan, todo: seq<Node>, mode: ApplyMode, now: int)
    requires WorkTracked(site, st, work) && ModeTracked(site, key, st, log, work, plan, todo, mode)
    ensures PassTracked(site, key, st, log, GoApply(site, work, plan, todo, mode, now))
  {
    if todo == [] {
      match mode
      case FirstApply => VerifyTracked(site, key, st, log, work, work.order, [], PlainVerify, now);
      case UpdateApply(_) => VerifyTracked(site, key, st, log, work, work.order, [], UpdateVerify, now);
      case RestoreApply =>
      case DriftApply(active) => VerifyTracked(site, key, st, log, work, work.order, [], DriftVerify(active), now);
    }
  }

  /** The whole order is still to do. */
  lemma NothingSent(site: Site, key: Key, log: seq<Event>, st: Status, work: Work)
    requires WorkTracked(site, st, work)
    ensures TookBut(site, log, key, work.hashes, work.order)
  {
    forall n | n in work.hashes ensures n in work.order { assert n in PlanHashes(site, work.plan); }
  }

  lemma RemoveTracked(site: Site, key: Key, st: Status, log: seq<Event>, work: Work, prev: Plan, todo: seq<Node>, now: int)
    requires !work.sameRender && WorkTracked(site, st, work) && IsPrev(site, st, work, prev)
    ensures PassTracked(site, key, st, log, GoRemove(site, work, prev, todo, now))
  {
    if todo == [] {
      NothingSent(site, key, log, st, work);
      ApplyTracked(site, key, st, log, work, work.plan, work.order, UpdateApply(prev), now);
    }
  }

  lemma RollTracked(site: Site, key: Key, st: Status, log: seq<Event>, work: Work, plan: Plan, todo: seq<Node>, mode: RollMode, now: int)
    requires WorkTracked(site, st, work) && (mode.UpdateRoll? ==> IsPrev(site, st, work, plan))
    ensures PassTracked(site, key, st, log, GoRoll(site, work, plan, todo, mode, now))
  {
    if todo == [] && mode.UpdateRoll? { ApplyTracked(site, key, st, log, work, plan, PlanOrder(plan), RestoreApply, now); }
  }

  lemma FailedTracked(site: Site, key: Key, st: Status, log: seq<Event>, work: Work, mode: ApplyMode, now: int)
    requires WorkTracked(site, st, work) && (mode.UpdateApply? ==> IsPrev(site, st, work, mode.prev))
    ensures PassTracked(site, key, st, log, GoFailedApply(site, work, mode, now))
  {
    match mode
    case FirstApply => RollTracked(site, key, st, log, work, work.plan, WithRollback(work.plan, PlanOrder(work.plan)), FirstRoll, now);
    case UpdateApply(prev) => RollTracked(site, key, st, log, work, prev, WithRollback(prev, PlanOrder(prev)), UpdateRoll, now);
    case RestoreApply =>
    case DriftApply(_) => RollTracked(site, key, st, log, work, work.plan, WithRollback(work.plan, PlanOrder(work.plan)), DriftRoll, now);
  }

  lemma PlanTracked(site: Site, key: Key, svc: Service, log: seq<Event>, alloc: Allocations, now: int)
    ensures PassTracked(site, key, svc.status, log, GoPlan(site, key, svc, alloc, now))
  {
    match site.render(svc.spec, alloc)
    case None =>
    case Some(plan) =>
      var hashes := PlanHashes(site, plan);
      var work := Work(key, svc, alloc, plan, PlanOrder(plan), hashes, HashesEqual(svc.status.configHashes, hashes), false);
      if svc.status.appliedSpec.Some? && !work.sameRender {
        match site.render(svc.status.appliedSpec.value, alloc)
        case None =>
        case Some(prev) => RemoveTracked(site, key, svc.status, log, work, prev, RemovalNodes(prev, plan), now);
      } else if !work.sameRender {
        NothingSent(site, key, log, svc.status, work);
        ApplyTracked(site, key, svc.status, log, work, plan, work.order, FirstApply, now);
      } else {
        VerifyTracked(site, key, svc.status, log, work, work.order, [], PlainVerify, now);
      }
  }

  lemma PrefixTracked(site: Site, key: Key, svc: Service, log: seq<Event>, id: int, waiting: seq<Attachment>, prefixes: map<Node, string>, now: int)
    ensures PassTracked(site, key, svc.status, log, GoPrefix(site, key, svc, id, waiting, prefixes, now))
  {
    if waiting == [] { PlanTracked(site, key, svc, log, Allocations(id, VrfName(id), prefixes), now); }
  }

  // ---- steps -----------------------------------------------------------------------------------

  predicate AtCall(pass: Pass) {
    (pass.Removing? || pass.Applying? || pass.RollingBack? || pass.FinalRollback?) && pass.todo != []
  }

  /** Only the pass moved on, and the log. */
  lemma Moved(site: Site, w: World, w': World, key: Key, pass: Pass)
    requires key in w.objects && w'.objects == w.objects && PassOf(w', key) == pass && Tracked(site, w, key)
    requires PassTracked(site, key, w.objects[key].status, w'.log, pass)
    ensures Tracked(site, w', key)
  {
  }

  /** A step at a call logs that call and leaves the store alone. */
  lemma CallLogged(site: Site, w: World, key: Key, t: Turn)
    requires AtCall(PassOf(w, key))
    ensures CallOf(w, key, t).Some? && Step(site, w, key, t).log == w.log + [CallOf(w, key, t).value]
    ensures Step(site, w, key, t).objects == w.objects
  {
  }

  lemma {:induction false} LastCallKept(log: seq<Event>, log': seq<Event>, key: Key, n: Node)
    requires NoCalls(log, log')
    ensures LastCall(log', key, n) == LastCall(log, key, n)
    decreases |log'|
  {
    if |log'| > |log| {
      LastCallKept(log, log'[..|log'| - 1], key, n);
    } else {
      assert log' == log;
    }
  }

  /** Any other step logs no call. */
  lemma NoCallLogged(site: Site, w: World, key: Key, t: Turn)
    requires KeyOk(site, w, key) && !AtCall(PassOf(w, key))
    ensures CallOf(w, key, t).None?
    ensures NoCalls(w.log, Step(site, w, key, t).log)
  {
    var p := PassOf(w, key);
    if p.ClaimingId? || p.ListingLeases? || p.CreatingLease? || p.ReadingLease? || p.ClaimingPrefix? { ClaimLogged(site, w, key, t); }
    else if p.DeletingClaims? || p.DeletingLeases? { ReleaseLogged(site, w, key, t); }
    else if p.RecordingUpdate? || p.NotingDrift? || p.Recording? || p.Refusing? || p.NotingFinalizing? { WriteLogged(site, w, key, t); }
    else if p.Observing? || p.Probing? || p.Verifying? { LookLogged(site, w, key, t); }
  }

  lemma ClaimLogged(site: Site, w: World, key: Key, t: Turn)
    requires var p := PassOf(w, key); p.ClaimingId? || p.ListingLeases? || p.CreatingLease? || p.ReadingLease? || p.ClaimingPrefix?
    ensures NoCalls(w.log, Step(site, w, key, t).log)
  {
    OneWrite(w.log, ClaimCall(key));
  }

  lemma ReleaseLogged(site: Site, w: World, key: Key, t: Turn)
    requires var p := PassOf(w, key); p.DeletingClaims? || p.DeletingLeases?
    ensures NoCalls(w.log, Step(site, w, key, t).log)
  {
    OneWrite(w.log, ClaimCall(key));
  }

  lemma WriteLogged(site: Site, w: World, key: Key, t: Turn)
    requires var p := PassOf(w, key); p.RecordingUpdate? || p.NotingDrift? || p.Recording? || p.Refusing? || p.NotingFinalizing?
    ensures NoCalls(w.log, Step(site, w, key, t).log)
  {
    OneWrite(w.log, StatusWrite(key));
  }

  lemma LookLogged(site: Site, w: World, key: Key, t: Turn)
    requires var p := PassOf(w, key); p.Observing? || p.Probing? || p.Verifying?
    ensures Step(site, w, key, t).log == w.log
  {
  }

  lemma StepCalls(site: Site, w: World, key: Key, t: Turn, n: Node)
    requires KeyOk(site, w, key)
    ensures LastCall(Step(site, w, key, t).log, key, n) ==
      if IsOn(CallOf(w, key, t), n) then CallOf(w, key, t) else LastCall(w.log, key, n)
  {
    if AtCall(PassOf(w, key)) {
      CallLogged(site, w, key, t);
      LastCallNext(w.log, CallOf(w, key, t).value, key, n);
    } else {
      NoCallLogged(site, w, key, t);
      LastCallKept(w.log, Step(site, w, key, t).log, key, n);
    }
  }

  /** An accepted apply of its ops takes the node off the list. */
  lemma TookOneMore(site: Site, key: Key, log: seq<Event>, plan: Plan, todo: seq<Node>)
    requires todo != [] && TookBut(site, log, key, PlanHashes(site, plan), todo)
    ensures TookBut(site, log + [ApplyCall(key, todo[0], OpsOn(plan, todo[0]), Accepted)], key, PlanHashes(site, plan), todo[1..])
  {
    var e := ApplyCall(key, todo[0], OpsOn(plan, todo[0]), Accepted);
    var hashes := PlanHashes(site, plan);
    forall n | n in hashes && n !in todo[1..] ensures Took(site, LastCall(log + [e], key, n), hashes[n]) {
      LastCallNext(log, e, key, n);
      if n != todo[0] { assert n !in todo; }
    }
  }

  lemma ApplyingTracked(site: Site, key: Key, st: Status, log: seq<Event>, work: Work, plan: Plan, todo: seq<Node>, mode: ApplyMode, t: Turn)
    requires todo != [] && WorkTracked(site, st, work) && ModeTracked(site, key, st, log, work, plan, todo, mode)
    ensures var log' := log + [ApplyCall(key, todo[0], OpsOn(plan, todo[0]), t.exec)];
      PassTracked(site, key, st, log', if t.exec.Accepted? then GoApply(site, work, plan, todo[1..], mode, t.now) else GoFailedApply(site, work, mode, t.now))
  {
    var log' := log + [ApplyCall(key, todo[0], OpsOn(plan, todo[0]), t.exec)];
    if t.exec.Accepted? {
      if mode.FirstApply? || mode.UpdateApply? { TookOneMore(site, key, log, plan, todo); }
      ApplyTracked(site, key, st, log', work, plan, todo[1..], mode, t.now);
    } else {
      FailedTracked(site, key, st, log', work, mode, t.now);
    }
  }

  lemma RemovingTracked(site: Site, key: Key, st: Status, log: seq<Event>, work: Work, prev: Plan, todo: seq<Node>, t: Turn)
    requires todo != [] && !work.sameRender && WorkTracked(site, st, work) && IsPrev(site, st, work, prev)
    ensures PassTracked(site, key, st, log, if t.exec.Accepted? || t.exec.Rejected? then GoRemove(site, work, prev, todo[1..], t.now) else Refusing(work.svc, ApplyKind))
  {
    RemoveTracked(site, key, st, log, work, prev, todo[1..], t.now);
  }

  /** Where a step at a call goes. */
  function AfterCall(site: Site, pass: Pass, t: Turn): Pass
    requires AtCall(pass)
  {
    match pass
    case Removing(work, prev, todo) =>
      if t.exec.Accepted? || t.exec.Rejected? then GoRemove(site, work, prev, todo[1..], t.now) else Refusing(work.svc, ApplyKind)
    case Applying(work, plan, todo, mode) =>
      if t.exec.Accepted? then GoApply(site, work, plan, todo[1..], mode, t.now) else GoFailedApply(site, work, mode, t.now)
    case RollingBack(work, plan, todo, mode) => GoRoll(site, work, plan, todo[1..], mode, t.now)
    case FinalRollback(svc, plan, todo, dirty) =>
      GoFinalRollback(svc, plan, todo[1..], if t.exec.Unreachable? then dirty + {todo[0]} else dirty)
  }

  lemma CallGoes(site: Site, w: World, key: Key, t: Turn)
    requires AtCall(PassOf(w, key))
    ensures PassOf(Step(site, w, key, t), key) == AfterCall(site, PassOf(w, key), t)
  {
    hide GoApply, GoRemove, GoRoll, GoFailedApply, GoFinalRollback;
  }

  lemma CallTracked(site: Site, key: Key, st: Status, log: seq<Event>, pass: Pass, e: Event, t: Turn)
    requires AtCall(pass) && PassTracked(site, key, st, log, pass)
    requires pass.Applying? ==> e == ApplyCall(key, pass.todo[0], OpsOn(pass.plan, pass.todo[0]), t.exec)
    ensures PassTracked(site, key, st, log + [e], AfterCall(site, pass, t))
  {
    match pass
    case Removing(work, prev, todo) => RemovingTracked(site, key, st, log + [e], work, prev, todo, t);
    case Applying(work, plan, todo, mode) => ApplyingTracked(site, key, st, log, work, plan, todo, mode, t);
    case RollingBack(work, plan, todo, mode) => RollTracked(site, key, st, log + [e], work, plan, todo[1..], mode, t.now);
    case FinalRollback(svc, plan, todo, dirty) =>
  }

  lemma DeviceTracked(site: Site, w: World, key: Key, t: Turn)
    requires KeyOk(site, w, key) && Tracked(site, w, key) && AtCall(PassOf(w, key))
    ensures Tracked(site, Step(site, w, key, t), key)
  {
    CallLogged(site, w, key, t);
    CallGoes(site, w, key, t);
    CallTracked(site, key, w.objects[key].status, w.log, PassOf(w, key), CallOf(w, key, t).value, t);
    Moved(site, w, Step(site, w, key, t), key, AfterCall(site, PassOf(w, key), t));
  }

  /** A status write that touches conditions only. */
  lemma ConditionsTracked(site: Site, key: Key, stored: Status, base: Status, next: Status, log: seq<Event>, pass: Pass)
    requires next == base.(conditions := next.conditions, observedGeneration := next.observedGeneration)
    ensures var st := MergePatch(stored, base, next);
      && st.allocations == stored.allocations && st.configHashes == stored.configHashes
      && (PassTracked(site, key, st, log, pass) <==> PassTracked(site, key, stored, log, pass))
  {
    SameHashesTracked(site, key, stored, MergePatch(stored, base, next), log, pass);
  }

  lemma SameHashesTracked(site: Site, key: Key, st: Status, st': Status, log: seq<Event>, pass: Pass)
    requires st'.configHashes == st.configHashes && st'.appliedSpec == st.appliedSpec
    ensures PassTracked(site, key, st', log, pass) <==> PassTracked(site, key, st, log, pass)
  {
    SameReads(site, st, st');
    hide TookBut, WorkTracked, IsPrev;
  }

  lemma SameReads(site: Site, st: Status, st': Status)
    requires st'.configHashes == st.configHashes && st'.appliedSpec == st.appliedSpec
    ensures forall work :: WorkTracked(site, st', work) <==> WorkTracked(site, st, work)
    ensures forall work, prev :: IsPrev(site, st', work, prev) <==> IsPrev(site, st, work, prev)
  {
  }

  /** The hashes a landed record leaves. */
  lemma RecordHashes(site: Site, w: World, key: Key, t: Turn)
    requires KeyOk(site, w, key) && Records(w, key, t)
    ensures var w' := Step(site, w, key, t);
      && key in w'.objects && w'.objects[key].status.allocations.Some?
      && w'.objects[key].status.configHashes == PassOf(w, key).work.hashes
  {
    match PassOf(w, key)
    case RecordingUpdate(work, now) =>
      var base := work.svc.status;
      HashesLand(w.objects[key].status, base, SetReadyOutcome(base, work.svc.generation, work.hashes, work.svc.spec, site.corr(key),
                                                              base.activePath, work.alloc, now));
    case Recording(work, base, next) => HashesLand(w.objects[key].status, base, next);
  }

  lemma HashesLand(stored: Status, base: Status, next: Status)
    requires SameRecord(base, stored)
    ensures MergePatch(stored, base, next).configHashes == next.configHashes
    ensures MergePatch(stored, base, next).allocations == next.allocations
  {
  }

  lemma UpdateTracked(site: Site, w: World, key: Key, t: Turn)
    requires KeyOk(site, w, key) && Tracked(site, w, key) && PassOf(w, key).RecordingUpdate?
    ensures Tracked(site, Step(site, w, key, t), key)
  {
    hide KeyOk, Start, TookBut, GoVerify, MergePatch;
    var work, w' := PassOf(w, key).work, Step(site, w, key, t);
    WriteLogged(site, w, key, t);
    if Records(w, key, t) { RecordHashes(site, w, key, t); }
    if Written(w, key, t.api) {
      SameCalls(site, key, w.log, w'.log, work.hashes);
      VerifyTracked(site, key, w'.objects[key].status, w'.log, work.(svc := w'.objects[key]), work.order, [], PlainVerify, t.now);
      assert PassOf(w', key) == GoVerify(site, work.(svc := w'.objects[key]), work.order, [], PlainVerify, t.now);
    } else {
      assert PassOf(w', key).Refusing?;
    }
  }

  lemma SameCalls(site: Site, key: Key, log: seq<Event>, log': seq<Event>, hashes: map<Node, int>)
    requires NoCalls(log, log')
    ensures TookBut(site, log, key, hashes, []) ==> TookBut(site, log', key, hashes, [])
  {
    forall n { LastCallKept(log, log', key, n); }
  }

  lemma DriftTracked(site: Site, w: World, key: Key, t: Turn)
    requires KeyOk(site, w, key) && Tracked(site, w, key) && PassOf(w, key).NotingDrift?
    ensures Tracked(site, Step(site, w, key, t), key)
  {
    var work, active, w' := PassOf(w, key).work, PassOf(w, key).active, Step(site, w, key, t);
    var next := SetRefusal(work.svc.status, work.svc.generation, CheckKind, t.now);
    ConditionsTracked(site, key, w.objects[key].status, work.svc.status, next, w'.log, PassOf(w', key));
    var svc := if Written(w, key, t.api) then w'.objects[key] else work.svc.(status := next);
    ApplyTracked(site, key, w.objects[key].status, w'.log, work.(svc := svc), work.plan, work.order, DriftApply(active), t.now);
    assert PassOf(w', key) == GoApply(site, work.(svc := svc), work.plan, work.order, DriftApply(active), t.now);
  }

  lemma VerifyingTracked(site: Site, w: World, key: Key, work: Work, todo: seq<Node>, seen: seq<NodeStatus>, mode: VerifyMode, t: Turn)
    requires key in w.objects && Tracked(site, w, key) && PassOf(w, key) == Verifying(work, todo, seen, mode) && todo != []
    ensures Tracked(site, StepVerifying(site, w, key, work, todo, seen, mode, t), key)
  {
    var st, seen' := w.objects[key].status, seen + [NodeStatus(todo[0], t.verify.Passed?)];
    match t.verify
    case Passed => VerifyTracked(site, key, st, w.log, work, todo[1..], seen', mode, t.now);
    case LocatorGone => VerifiedTracked(site, key, st, w.log, work, seen', Some(LocatorKind), mode, t.now);
    case _ => VerifiedTracked(site, key, st, w.log, work, seen', Some(CheckKind), mode, t.now);
  }

  /** Where the path stage goes. */
  lemma PathGoes(site: Site, w: World, key: Key, work: Work, failed: Option<Kind>, t: Turn) returns (w': World, work': Work, failed': Option<Kind>)
    requires t.path.Rides?
    ensures w' == StepObserving(site, w, key, work, failed, t) && w'.objects == w.objects && w'.log == w.log
    ensures work' == work.(skipRepair := work'.skipRepair) && PassOf(w', key) == AfterPath(site, work', failed', t.path.spine, t.now)
  {
    hide AfterPath;
    w' := StepObserving(site, w, key, work, failed, t);
    var waived := failed == Some(CheckKind) && t.path.spine != "" && t.path.spine != work.svc.spec.preferredSpine;
    work', failed' := if waived then work.(skipRepair := true) else work, if waived then None else failed;
  }

  lemma ObservingTracked(site: Site, w: World, key: Key, work: Work, failed: Option<Kind>, t: Turn)
    requires key in w.objects && Tracked(site, w, key) && PassOf(w, key) == Observing(work, failed)
    ensures Tracked(site, StepObserving(site, w, key, work, failed, t), key)
  {
    hide AfterPath, StepObserving;
    if t.path.Rides? {
      var w', work', failed' := PathGoes(site, w, key, work, failed, t);
      PathTracked(site, key, w.objects[key].status, w.log, work', failed', t.path.spine, t.now);
      Moved(site, w, w', key, AfterPath(site, work', failed', t.path.spine, t.now));
    } else {
      PathEnds(site, w, key, work, failed, t);
    }
  }

  lemma PathEnds(site: Site, w: World, key: Key, work: Work, failed: Option<Kind>, t: Turn)
    requires key in w.objects && Tracked(site, w, key) && !t.path.Rides?
    ensures Tracked(site, StepObserving(site, w, key, work, failed, t), key)
  {
  }

  lemma ProbeGoes(site: Site, w: World, key: Key, work: Work, active: string, t: Turn)
    ensures var w' := StepProbing(site, w, key, work, active, t);
      && w'.objects == w.objects && w'.log == w.log
      && (if t.probe.ProbePasses? then PassOf(w', key) == GoRecord(site, work, Some(t.now), active, t.now) else !HasWork(PassOf(w', key)))
  {
    hide GoRecord;
  }

  lemma ProbingTracked(site: Site, w: World, key: Key, work: Work, active: string, t: Turn)
    requires key in w.objects && Tracked(site, w, key) && PassOf(w, key) == Probing(work, active)
    ensures Tracked(site, StepProbing(site, w, key, work, active, t), key)
  {
    hide GoRecord, StepProbing;
    ProbeGoes(site, w, key, work, active, t);
    RecordTracked(site, key, w.objects[key].status, w.log, work, Some(t.now), active, t.now);
    Moved(site, w, StepProbing(site, w, key, work, active, t), key, PassOf(StepProbing(site, w, key, work, active, t), key));
  }

  /** The last write, a refusal or a note. */
  lemma LastWriteTracked(site: Site, w: World, key: Key, t: Turn)
    requires KeyOk(site, w, key) && Tracked(site, w, key)
    requires var p := PassOf(w, key); p.Recording? || p.Refusing? || p.NotingFinalizing?
    ensures Tracked(site, Step(site, w, key, t), key)
  {
    if PassOf(w, key).Recording? { RecordingTracked(site, w, key, t); } else { RefusingTracked(site, w, key, t); }
  }

  lemma RecordingTracked(site: Site, w: World, key: Key, t: Turn)
    requires KeyOk(site, w, key) && Tracked(site, w, key) && PassOf(w, key).Recording?
    ensures Tracked(site, Step(site, w, key, t), key)
  {
    hide KeyOk, Start, TookBut, MergePatch;
    assert PassOf(Step(site, w, key, t), key).Idle?;
    if Records(w, key, t) { RecordHashes(site, w, key, t); }
  }

  lemma RefusingTracked(site: Site, w: World, key: Key, t: Turn)
    requires Tracked(site, w, key) && (PassOf(w, key).Refusing? || PassOf(w, key).NotingFinalizing?)
    ensures Tracked(site, Step(site, w, key, t), key)
  {
    hide Start, MergePatch, TookBut;
    var stored, w' := if key in w.objects then w.objects[key].status else EmptyStatus, Step(site, w, key, t);
    assert PassOf(w', key).Idle?;
    match PassOf(w, key)
    case Refusing(svc, kind) =>
      ConditionsTracked(site, key, stored, svc.status, SetRefusal(svc.status, svc.generation, kind, t.now), w.log, Idle);
    case NotingFinalizing(svc) =>
      ConditionsTracked(site, key, stored, svc.status, SetFinalizing(svc.status, svc.generation, t.now), w.log, Idle);
  }

  lemma PrefixStepTracked(site: Site, w: World, key: Key, svc: Service, id: int, waiting: seq<Attachment>, prefixes: map<Node, string>, t: Turn)
    requires Tracked(site, w, key) && key in w.objects && w.objects[key].status == svc.status && waiting != []
    ensures Tracked(site, StepClaimingPrefix(site, w, key, svc, id, waiting, prefixes, t), key)
  {
    var w' := StepClaimingPrefix(site, w, key, svc, id, waiting, prefixes, t);
    var pass := GoPrefix(site, key, svc, id, waiting[1..], prefixes[waiting[0].node := t.address], t.now);
    PrefixTracked(site, key, svc, w'.log, id, waiting[1..], prefixes[waiting[0].node := t.address], t.now);
    Moved(site, w, w', key, if t.api.Failed? then GoUnclaimed(svc, t.usedUp) else pass);
  }

  /** An id is held: on to the prefixes. */
  lemma IdTracked(site: Site, w: World, w': World, key: Key, svc: Service, id: int, now: int)
    requires Tracked(site, w, key) && key in w.objects && w.objects[key].status == svc.status && w'.objects == w.objects
    requires var pass := PassOf(w', key); !HasWork(pass) || pass == GoPrefix(site, key, svc, id, OrderedAttachments(svc.spec.attachments), map[], now)
    ensures Tracked(site, w', key)
  {
    PrefixTracked(site, key, svc, w'.log, id, OrderedAttachments(svc.spec.attachments), map[], now);
    Moved(site, w, w', key, PassOf(w', key));
  }

  lemma ListTracked(site: Site, w: World, key: Key, svc: Service, t: Turn)
    requires Tracked(site, w, key) && key in w.objects && w.objects[key].status == svc.status && PassOf(w, key) == ListingLeases(svc)
    ensures Tracked(site, StepListingLeases(site, w, key, svc, t), key)
  {
    CreateHasNoWork(site, svc, site.firstId, w.leases.Keys);
    IdTracked(site, w, StepListingLeases(site, w, key, svc, t), key, svc, t.pick, t.now);
  }

  lemma LeaseTracked(site: Site, w: World, key: Key, svc: Service, value: int, used: set<int>, t: Turn)
    requires Tracked(site, w, key) && key in w.objects && w.objects[key].status == svc.status
    ensures Tracked(site, StepCreatingLease(site, w, key, svc, value, used, t), key)
    ensures Tracked(site, StepReadingLease(site, w, key, svc, value, used, t), key)
  {
    CreateHasNoWork(site, svc, value + 1, used);
    hide Tracked, GoPrefix, TookBut;
    IdTracked(site, w, StepCreatingLease(site, w, key, svc, value, used, t), key, svc, value, t.now);
    IdTracked(site, w, StepReadingLease(site, w, key, svc, value, used, t), key, svc, value, t.now);
  }

  lemma StartTracked(site: Site, w: World, key: Key, t: Turn)
    requires Tracked(site, w, key) && PassOf(w, key).Idle?
    ensures Tracked(site, Start(site, w, key, t), key)
  {
    hide GoPlan, GoFinalRollback, FinalPlan, WithRollback, PlanOrder, TookBut;
    if key in w.objects {
      var svc := w.objects[key];
      if svc.deleting {
        FinalStartOn(site, w, key, t);
      } else if svc.finalizer && t.gate.None? && Reusable(site, svc, site.corr(key)) {
        PlanTracked(site, key, svc, w.log, svc.status.allocations.value, t.now);
      }
    }
  }

  /** The rest of a pass has no work and writes no record. */
  lemma OtherTracked(site: Site, w: World, key: Key, t: Turn)
    requires KeyOk(site, w, key) && Tracked(site, w, key)
    requires !HasWork(PassOf(Step(site, w, key, t), key))
    requires key in Step(site, w, key, t).objects ==> key in w.objects && Step(site, w, key, t).objects[key].status == w.objects[key].status
    ensures Tracked(site, Step(site, w, key, t), key)
  {
    hide KeyOk, Step;
  }

  lemma QuietTracked(site: Site, w: World, key: Key, t: Turn)
    requires KeyOk(site, w, key) && Tracked(site, w, key)
    requires var p := PassOf(w, key);
      p.AddingFinalizer? || p.ClaimingId? || p.AwaitingId? || p.ListingClaims? || p.DeletingClaims?
      || p.ListingOwnLeases? || p.DeletingLeases? || p.FinalRollback? || p.Stripping? || (p.ClaimingPrefix? && p.waiting == [])
    ensures Tracked(site, Step(site, w, key, t), key)
  {
    hide KeyOk, Step, Tracked;
    var p := PassOf(w, key);
    if p.AddingFinalizer? || p.ClaimingId? || p.AwaitingId? || p.ListingClaims? || p.DeletingClaims? { QuietStepsOn(site, w, key, t); }
    else { FinalStepsOn(site, w, key, t); }
    StepObjects(site, w, key, t);
    if key in Step(site, w, key, t).objects { OnlyStatusSteps(site, w, key, t); }
    OtherTracked(site, w, key, t);
  }

  lemma ClaimTracked(site: Site, w: World, key: Key, t: Turn)
    requires KeyOk(site, w, key) && Tracked(site, w, key)
    requires var p := PassOf(w, key); p.ListingLeases? || p.CreatingLease? || p.ReadingLease? || (p.ClaimingPrefix? && p.waiting != [])
    ensures Tracked(site, Step(site, w, key, t), key)
  {
    hide Tracked, StepListingLeases, StepCreatingLease, StepReadingLease, StepClaimingPrefix;
    match PassOf(w, key)
    case ClaimingPrefix(svc, id, waiting, prefixes) => PrefixStepTracked(site, w, key, svc, id, waiting, prefixes, t);
    case ListingLeases(svc) => ListTracked(site, w, key, svc, t);
    case CreatingLease(svc, value, used) => LeaseTracked(site, w, key, svc, value, used, t);
    case ReadingLease(svc, value, used) => LeaseTracked(site, w, key, svc, value, used, t);
  }

  lemma LookTracked(site: Site, w: World, key: Key, t: Turn)
    requires KeyOk(site, w, key) && Tracked(site, w, key)
    requires var p := PassOf(w, key); (p.Verifying? && p.todo != []) || p.Observing? || p.Probing?
    ensures Tracked(site, Step(site, w, key, t), key)
  {
    hide Tracked, StepVerifying, StepObserving, StepProbing;
    match PassOf(w, key)
    case Verifying(work, todo, seen, mode) => VerifyingTracked(site, w, key, work, todo, seen, mode, t);
    case Observing(work, failed) => ObservingTracked(site, w, key, work, failed, t);
    case Probing(work, active) => ProbingTracked(site, w, key, work, active, t);
  }

  lemma StillTracked(site: Site, w: World, key: Key, t: Turn)
    requires var p := PassOf(w, key); (p.Removing? || p.Applying? || p.RollingBack? || p.Verifying?) && p.todo == []
    ensures Step(site, w, key, t) == w
  {
  }

  lemma IdleTracked(site: Site, w: World, key: Key, t: Turn)
    requires Tracked(site, w, key) && PassOf(w, key).Idle?
    ensures Tracked(site, Step(site, w, key, t), key)
  {
    hide Tracked, Start;
    StartTracked(site, w, key, t);
  }

  lemma StepTracked(site: Site, w: World, key: Key, t: Turn)
    requires KeyOk(site, w, key) && Tracked(site, w, key)
    ensures Tracked(site, Step(site, w, key, t), key)
  {
    hide KeyOk, Tracked, Step;
    var p := PassOf(w, key);
    if p.Idle? { IdleTracked(site, w, key, t); }
    else if AtCall(p) { DeviceTracked(site, w, key, t); }
    else if p.RecordingUpdate? { UpdateTracked(site, w, key, t); }
    else if p.NotingDrift? { DriftTracked(site, w, key, t); }
    else if (p.Verifying? && p.todo != []) || p.Observing? || p.Probing? { LookTracked(site, w, key, t); }
    else if p.Recording? || p.Refusing? || p.NotingFinalizing? { LastWriteTracked(site, w, key, t); }
    else if p.Removing? || p.Applying? || p.RollingBack? || p.Verifying? { StillTracked(site, w, key, t); }
    else if p.ListingLeases? || p.CreatingLease? || p.ReadingLease? || (p.ClaimingPrefix? && p.waiting != []) { ClaimTracked(site, w, key, t); }
    else { QuietTracked(site, w, key, t); }
  }

  // ---- moves -----------------------------------------------------------------------------------

  lemma OthersCalls(k: Key, log: seq<Event>, log': seq<Event>, key: Key, n: Node)
    requires k != key && LogOwn(k, log, log')
    ensures LastCall(log', key, n) == LastCall(log, key, n)
  {
    if log' != log { LastCallNext(log, log'[|log|], key, n); }
  }

  /** What operators and lease holders leave of a service. */
  lemma OperatorTracked(site: Site, w: World, m: Move, key: Key)
    requires Inv(site, w) && Tracked(site, w, key) && !m.PassStep?
    ensures Tracked(site, Apply(site, w, m), key)
  {
    hide Tracked;
    var w' := Apply(site, w, m);
    assert KeyOk(site, w, key);
    if key in w'.objects {
      if key in w.objects { StatusTracked(site, w, w', key); } else { BornTracked(site, w, w', key); }
    } else {
      GoneTracked(site, w', key);
    }
  }

  lemma StatusTracked(site: Site, w: World, w': World, key: Key)
    requires key in w.objects && key in w'.objects && w'.objects[key].status == w.objects[key].status
    requires PassOf(w', key) == PassOf(w, key) && w'.log == w.log && Tracked(site, w, key)
    ensures Tracked(site, w', key)
  {
  }

  lemma BornTracked(site: Site, w: World, w': World, key: Key)
    requires KeyOk(site, w, key) && key !in w.objects && key in w'.objects && w'.objects[key].status == EmptyStatus
    requires PassOf(w', key) == PassOf(w, key)
    ensures Tracked(site, w', key)
  {
  }

  lemma GoneTracked(site: Site, w: World, key: Key)
    requires key !in w.objects
    ensures Tracked(site, w, key)
  {
  }

  /** The passes of others and the operators leave a service tracked. */
  lemma OutsideTracked(site: Site, w: World, m: Move, key: Key)
    requires SiteOk(site) && Inv(site, w) && Tracked(site, w, key) && !Own(m, key)
    ensures Tracked(site, Apply(site, w, m), key)
  {
    hide Tracked, Step, KeyOk;
    if m.PassStep? {
      assert KeyOk(site, w, m.key);
      StepOwn(site, w, m.key, m.turn);
      FramedTracked(site, w, Step(site, w, m.key, m.turn), m.key, key);
    } else {
      OperatorTracked(site, w, m, key);
    }
  }

  lemma FramedTracked(site: Site, w: World, w': World, k: Key, key: Key)
    requires OnlyOwn(site, k, w, w') && k != key && Tracked(site, w, key)
    ensures Tracked(site, w', key)
  {
    assert Obj(w', key) == Obj(w, key) && PassOf(w', key) == PassOf(w, key);
    forall n { OthersCalls(k, w.log, w'.log, key, n); }
    SameTracked(site, w, w', key);
  }

  lemma SameTracked(site: Site, w: World, w': World, key: Key)
    requires Obj(w', key) == Obj(w, key) && PassOf(w', key) == PassOf(w, key) && Tracked(site, w, key)
    requires forall n :: LastCall(w'.log, key, n) == LastCall(w.log, key, n)
    ensures Tracked(site, w', key)
  {
  }

  lemma {:induction false} TrackedRun(site: Site, moves: seq<Move>, key: Key, n: nat)
    requires SiteOk(site) && n <= |moves|
    ensures Tracked(site, Upto(site, moves, n), key)
    decreases n
  {
    if n == 0 {
      assert moves[..0] == [];
    } else {
      TrackedRun(site, moves, key, n - 1);
      UptoNext(site, moves, n - 1);
      TrackedMove(site, Upto(site, moves, n - 1), moves[n - 1], key);
    }
  }

  lemma TrackedMove(site: Site, w: World, m: Move, key: Key)
    requires SiteOk(site) && Inv(site, w) && Tracked(site, w, key)
    ensures Tracked(site, Apply(site, w, m), key)
  {
    hide Tracked, Step;
    if Own(m, key) {
      assert KeyOk(site, w, key);
      StepTracked(site, w, key, m.turn);
    } else {
      OutsideTracked(site, w, m, key);
    }
  }

  // ---- one move against the record ----------------------------------------------------------------

  /** A call over a record that is not an accepted apply of it is one of the ways off. */
  lemma StrayCall(site: Site, w: World, key: Key, n: Node, t: Turn)
    requires KeyOk(site, w, key) && Tracked(site, w, key) && RecordedOn(w, key, n)
    requires IsOn(CallOf(w, key, t), n) && !Took(site, CallOf(w, key, t), w.objects[key].status.configHashes[n])
    ensures Strays(site, w, key, n, t)
  {
    if PassOf(w, key).Applying? && PassOf(w, key).applyMode.DriftApply? { RepairTakes(site, w, key, n, t); }
  }

  /** A repair sends the recorded ops. */
  lemma RepairTakes(site: Site, w: World, key: Key, n: Node, t: Turn)
    requires Tracked(site, w, key) && RecordedOn(w, key, n) && IsOn(CallOf(w, key, t), n)
    requires PassOf(w, key).Applying? && PassOf(w, key).applyMode.DriftApply?
    ensures t.exec.Accepted? ==> Took(site, CallOf(w, key, t), w.objects[key].status.configHashes[n])
  {
    assert n in PlanHashes(site, PassOf(w, key).work.plan);
  }

  /** Only a landed record changes the recorded hashes. */
  lemma HashesKept(site: Site, w: World, key: Key, t: Turn)
    requires KeyOk(site, w, key) && !Records(w, key, t) && key in Step(site, w, key, t).objects
    ensures key in w.objects && Step(site, w, key, t).objects[key].status.configHashes == w.objects[key].status.configHashes
  {
    hide KeyOk, RecordOk;
    StepObjects(site, w, key, t);
    var p := PassOf(w, key);
    if p.Refusing? || p.NotingFinalizing? || p.NotingDrift? { ConditionsKept(site, w, key, t); }
    else if p.RecordingUpdate? || p.Recording? { RecordLost(site, w, key, t); }
    else { OnlyStatusSteps(site, w, key, t); }
  }

  lemma ConditionsKept(site: Site, w: World, key: Key, t: Turn)
    requires key in w.objects && key in Step(site, w, key, t).objects
    requires var p := PassOf(w, key); p.Refusing? || p.NotingFinalizing? || p.NotingDrift?
    ensures Step(site, w, key, t).objects[key].status.configHashes == w.objects[key].status.configHashes
  {
    var base, next := ConditionsWritten(site, w, key, t);
    hide Step;
  }

  lemma RecordLost(site: Site, w: World, key: Key, t: Turn)
    requires key in w.objects && !Records(w, key, t) && (PassOf(w, key).RecordingUpdate? || PassOf(w, key).Recording?)
    ensures Step(site, w, key, t).objects == w.objects
  {
  }

  /** One move, for a node recorded after it: it is on record by the record that
      landed, or it was recorded with the same hash before and the last call decides. */
  ghost predicate Decides(site: Site, w: World, w': World, key: Key, n: Node, call: Option<Event>, landed: bool)
    requires RecordedOn(w', key, n)
  {
    if landed then OnRecord(site, w', key, n)
    else
      && RecordedOn(w, key, n) && w'.objects[key].status.configHashes[n] == w.objects[key].status.configHashes[n]
      && (OnRecord(site, w', key, n) <==>
            if IsOn(call, n) then Took(site, call, w.objects[key].status.configHashes[n]) else OnRecord(site, w, key, n))
  }

  lemma OwnDecides(site: Site, w: World, key: Key, n: Node, t: Turn)
    requires KeyOk(site, w, key) && Tracked(site, w, key) && RecordedOn(Step(site, w, key, t), key, n)
    ensures Decides(site, w, Step(site, w, key, t), key, n, CallOf(w, key, t), Lands(w, key, t))
  {
    hide KeyOk, Step;
    StepCalls(site, w, key, t, n);
    if Records(w, key, t) {
      RecordHashes(site, w, key, t);
      RecordIsNoCalls(w, key, t);
      RecordDecides(site, w, key, n, t);
    } else {
      HashesKept(site, w, key, t);
    }
  }

  lemma RecordDecides(site: Site, w: World, key: Key, n: Node, t: Turn)
    requires Tracked(site, w, key) && Records(w, key, t) && n in PassOf(w, key).work.hashes
    ensures var work := PassOf(w, key).work;
      if work.sameRender then RecordedOn(w, key, n) && w.objects[key].status.configHashes[n] == work.hashes[n]
      else Took(site, LastCall(w.log, key, n), work.hashes[n])
  {
    RecordTracks(site, w, key);
    hide Tracked;
  }

  lemma RecordTracks(site: Site, w: World, key: Key)
    requires Tracked(site, w, key) && key in w.objects && (PassOf(w, key).RecordingUpdate? || PassOf(w, key).Recording?)
    ensures WorkTracked(site, w.objects[key].status, PassOf(w, key).work)
    ensures !PassOf(w, key).work.sameRender ==> TookBut(site, w.log, key, PassOf(w, key).work.hashes, [])
  {
    hide WorkTracked, TookBut;
  }

  lemma OtherDecides(site: Site, w: World, m: Move, key: Key, n: Node)
    requires SiteOk(site) && Inv(site, w) && !Own(m, key) && RecordedOn(Apply(site, w, m), key, n)
    ensures Decides(site, w, Apply(site, w, m), key, n, None, false)
  {
    hide KeyOk, Step;
    if m.PassStep? {
      assert KeyOk(site, w, m.key);
      StepOwn(site, w, m.key, m.turn);
      assert Obj(Apply(site, w, m), key) == Obj(w, key);
      OthersCalls(m.key, w.log, Apply(site, w, m).log, key, n);
    }
  }

  /** One move: a recorded node is off its record after it exactly when the move
      takes a way off, or does not mend it and it was off before. */
  lemma OffMove(site: Site, w: World, m: Move, key: Key, n: Node)
    requires SiteOk(site) && Inv(site, w) && Tracked(site, w, key) && RecordedOn(Apply(site, w, m), key, n)
    ensures !OnRecord(site, Apply(site, w, m), key, n) <==>
      (Own(m, key) && Strays(site, w, key, n, m.turn)) ||
      (!(Own(m, key) && Mends(site, w, key, n, m.turn)) && RecordedOn(w, key, n) && !OnRecord(site, w, key, n))
  {
    hide KeyOk, Step, Tracked;
    assert KeyOk(site, w, key);
    if Own(m, key) {
      var t := m.turn;
      OwnDecides(site, w, key, n, t);
      if RecordedOn(w, key, n) && IsOn(CallOf(w, key, t), n) {
        if Records(w, key, t) { RecordIsNoCalls(w, key, t); }
        if !Took(site, CallOf(w, key, t), w.objects[key].status.configHashes[n]) { StrayCall(site, w, key, n, t); }
      }
    } else {
      OtherDecides(site, w, m, key, n);
    }
  }

  lemma RecordIsNoCalls(w: World, key: Key, t: Turn)
    requires Records(w, key, t)
    ensures CallOf(w, key, t).None?
  {
  }

  // ---- runs ------------------------------------------------------------------------------------------

  ghost predicate OffAt(site: Site, moves: seq<Move>, key: Key, n: Node, k: nat)
    requires k <= |moves|
  {
    RecordedOn(Upto(site, moves, k), key, n) && !OnRecord(site, Upto(site, moves, k), key, n)
  }

  /** Move i left the node off its record, and none of the next up to k brings it back. */
  ghost predicate LeftBy(site: Site, moves: seq<Move>, key: Key, n: Node, i: nat, k: nat)
    requires k <= |moves|
  {
    && i < k && Own(moves[i], key) && Strays(site, Upto(site, moves, i), key, n, moves[i].turn)
    && forall j :: i < j < k ==> !MendsAt(site, moves, key, n, j)
  }

  lemma OffNext(site: Site, moves: seq<Move>, key: Key, n: Node, k: nat)
    requires SiteOk(site) && k < |moves| && RecordedOn(Upto(site, moves, k + 1), key, n)
    ensures OffAt(site, moves, key, n, k + 1) <==>
      (Own(moves[k], key) && Strays(site, Upto(site, moves, k), key, n, moves[k].turn)) ||
      (!MendsAt(site, moves, key, n, k) && OffAt(site, moves, key, n, k))
  {
    UptoNext(site, moves, k);
    TrackedRun(site, moves, key, k);
    OffMove(site, Upto(site, moves, k), moves[k], key, n);
  }

  lemma {:induction false} LeftIsOff(site: Site, moves: seq<Move>, key: Key, n: Node, i: nat, k: nat)
    requires SiteOk(site) && k <= |moves| && LeftBy(site, moves, key, n, i, k) && RecordedOn(Upto(site, moves, k), key, n)
    ensures OffAt(site, moves, key, n, k)
    decreases k
  {
    hide Strays, Mends, OnRecord, RecordedOn, Run;
    OffNext(site, moves, key, n, k - 1);
    if i < k - 1 {
      assert !MendsAt(site, moves, key, n, k - 1);
      RecordedBefore(site, moves, key, n, k - 1);
      LeftIsOff(site, moves, key, n, i, k - 1);
    }
  }

  lemma NothingAtFirst(site: Site, moves: seq<Move>, key: Key, n: Node)
    ensures !OffAt(site, moves, key, n, 0)
  {
    assert moves[..0] == [];
  }

  lemma RecordedBefore(site: Site, moves: seq<Move>, key: Key, n: Node, k: nat)
    requires SiteOk(site) && k < |moves| && RecordedOn(Upto(site, moves, k + 1), key, n) && !MendsAt(site, moves, key, n, k)
    ensures RecordedOn(Upto(site, moves, k), key, n)
  {
    hide Step, KeyOk, Tracked;
    var w, m := Upto(site, moves, k), moves[k];
    UptoNext(site, moves, k);
    TrackedRun(site, moves, key, k);
    assert KeyOk(site, w, key);
    if Own(m, key) { OwnDecides(site, w, key, n, m.turn); } else { OtherDecides(site, w, m, key, n); }
  }

  lemma {:induction false} OffIsLeft(site: Site, moves: seq<Move>, key: Key, n: Node, k: nat) returns (i: nat)
    requires SiteOk(site) && k <= |moves| && OffAt(site, moves, key, n, k)
    ensures LeftBy(site, moves, key, n, i, k)
    decreases k
  {
    hide Strays, Mends, OnRecord, RecordedOn, Run;
    NothingAtFirst(site, moves, key, n);
    OffNext(site, moves, key, n, k - 1);
    if Own(moves[k - 1], key) && Strays(site, Upto(site, moves, k - 1), key, n, moves[k - 1].turn) {
      i := k - 1;
    } else {
      i := OffIsLeft(site, moves, key, n, k - 1);
    }
  }

  /** At every moment of every run: what the service last sent to a recorded node
      went through and is what is recorded, exactly when no removal, update,
      rollback, failed restore, failed repair or delete left the node off its
      record with nothing after it to bring it back. */
  lemma RecordIsLastApplied(site: Site, moves: seq<Move>, key: Key, n: Node)
    requires SiteOk(site) && RecordedOn(Run(site, EmptyWorld, moves), key, n)
    ensures OnRecord(site, Run(site, EmptyWorld, moves), key, n) <==> !(exists i: nat :: LeftOff(site, moves, key, n, i))
  {
    assert moves[..|moves|] == moves;
    if i: nat :| LeftOff(site, moves, key, n, i) {
      assert LeftBy(site, moves, key, n, i, |moves|);
      LeftIsOff(site, moves, key, n, i, |moves|);
    } else if !OnRecord(site, Run(site, EmptyWorld, moves), key, n) {
      assert OffAt(site, moves, key, n, |moves|);
      var i := OffIsLeft(site, moves, key, n, |moves|);
      assert LeftOff(site, moves, key, n, i);
    }
  }

  /** The service's last call on the node was accepted, and sent these ops. */
  predicate LastTook(log: seq<Event>, key: Key, n: Node, ops: seq<Op>) {
    var call := LastCall(log, key, n);
    call.Some? && call.value.ApplyCall? && call.value.answer.Accepted? && call.value.ops == ops
  }

  /** In every run: a pass that skips its apply has, on a node of its plan, the ops
      that the service applied last, exactly when nothing has left the node off its
      record (the hash taken as injective). */
  lemma SkippedApplyIsLastApplied(site: Site, moves: seq<Move>, key: Key, n: Node)
    requires SiteOk(site) && forall a, b :: site.hash(a) == site.hash(b) ==> a == b
    requires var pass := PassOf(Run(site, EmptyWorld, moves), key);
      HasWork(pass) && pass.work.sameRender && n in pass.work.plan.nodes
    ensures var w := Run(site, EmptyWorld, moves);
      LastTook(w.log, key, n, PassOf(w, key).work.plan.nodes[n].ops) <==> !(exists i: nat :: LeftOff(site, moves, key, n, i))
  {
    var w := Run(site, EmptyWorld, moves);
    assert moves[..|moves|] == moves;
    RunOk(site, moves);
    TrackedRun(site, moves, key, |moves|);
    SkipIsRecorded(site, w, key, n);
    RecordIsLastApplied(site, moves, key, n);
  }

  lemma SkipIsRecorded(site: Site, w: World, key: Key, n: Node)
    requires KeyOk(site, w, key) && Tracked(site, w, key)
    requires var pass := PassOf(w, key); HasWork(pass) && pass.work.sameRender && n in pass.work.plan.nodes
    ensures RecordedOn(w, key, n) && w.objects[key].status.configHashes[n] == site.hash(PassOf(w, key).work.plan.nodes[n].ops)
  {
    SkipTracks(site, w, key);
    var work := PassOf(w, key).work;
    assert n in PlanHashes(site, work.plan) && n in work.hashes;
  }

  lemma SkipTracks(site: Site, w: World, key: Key)
    requires KeyOk(site, w, key) && Tracked(site, w, key) && HasWork(PassOf(w, key))
    ensures key in w.objects && WorkTracked(site, w.objects[key].status, PassOf(w, key).work)
  {
    hide WorkTracked, TookBut;
  }

  /** A restore under the recorded identifiers, while the record is that of one
      render, brings back the record on every node that accepts it. */
  lemma RestoreTakes(site: Site, w: World, key: Key, n: Node, t: Turn)
    requires Tracked(site, w, key) && RecordedOn(w, key, n) && IsOn(CallOf(w, key, t), n) && t.exec.Accepted?
    requires PassOf(w, key).Applying? && PassOf(w, key).applyMode.RestoreApply?
    requires Faithful(site, w.objects[key].status) && w.objects[key].status.allocations == Some(PassOf(w, key).work.alloc)
    ensures Mends(site, w, key, n, t) && !Strays(site, w, key, n, t)
  {
    var st, plan := w.objects[key].status, PassOf(w, key).plan;
    assert st.configHashes == PlanHashes(site, plan);
    assert n in PlanHashes(site, plan);
  }
}
