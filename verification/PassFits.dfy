/** What a pass still knows when it writes its record: while no refresh brings in
    a spec of other hashes, or one that is no longer steered, the record matches its
    render and an unsteered service reports no path. */
module PassFits {
  import opened Text
  import opened ServiceObjects
  import opened PassMachine
  import opened PassInvariant
  import opened PassRecord

  predicate Ordered(work: Work) {
    work.order == SortedKeys(work.hashes.Keys)
  }

  /** An unsteered service reports no active path. */
  predicate ActiveOk(site: Site, work: Work, active: string) {
    !site.steerable(work.svc.spec, work.order) ==> active == ""
  }

  predicate Fits(site: Site, pass: Pass) {
    HasWork(pass) ==>
      && Ordered(pass.work)
      && match pass
         case Applying(work, _, _, mode) => mode.DriftApply? ==> ActiveOk(site, work, mode.active)
         case Verifying(work, _, _, mode) => mode.DriftVerify? ==> ActiveOk(site, work, mode.active)
         case Observing(work, _) => site.steerable(work.svc.spec, work.order)
         case NotingDrift(work, active) => ActiveOk(site, work, active)
         case Probing(work, active) => ActiveOk(site, work, active)
         case Recording(work, _, next) => ActiveOk(site, work, next.activePath)
         case _ => true
  }

  // ---- stages ------------------------------------------------------------------------------

  lemma ReadyFits(site: Site, work: Work, dataPath: Option<int>, active: string, now: int)
    requires Ordered(work) && ActiveOk(site, work, active)
    ensures Fits(site, GoRecord(site, work, dataPath, active, now)) && Fits(site, GoReady(site, work, active, now))
  {
  }

  lemma PathFits(site: Site, work: Work, failed: Option<Kind>, active: string, now: int)
    requires Ordered(work) && ActiveOk(site, work, active)
    ensures Fits(site, AfterPath(site, work, failed, active, now))
  {
    if failed.None? { ReadyFits(site, work, None, active, now); }
  }

  lemma VerifiedFits(site: Site, work: Work, seen: seq<NodeStatus>, failed: Option<Kind>, mode: VerifyMode, now: int)
    requires Ordered(work) && (mode.DriftVerify? ==> ActiveOk(site, work, mode.active))
    ensures Fits(site, AfterVerify(site, work, seen, failed, mode, now))
  {
    var work' := work.(svc := work.svc.(status := work.svc.status.(nodes := seen)));
    match mode
    case PlainVerify => if !site.steerable(work'.svc.spec, work'.order) { PathFits(site, work', failed, "", now); }
    case UpdateVerify =>
    case DriftVerify(active) => ReadyFits(site, work', None, active, now);
  }

  lemma VerifyFits(site: Site, work: Work, todo: seq<Node>, seen: seq<NodeStatus>, mode: VerifyMode, now: int)
    requires Ordered(work) && (mode.DriftVerify? ==> ActiveOk(site, work, mode.active))
    ensures Fits(site, GoVerify(site, work, todo, seen, mode, now))
  {
    if todo == [] { VerifiedFits(site, work, seen, None, mode, now); }
  }

  lemma ApplyFits(site: Site, work: Work, plan: Plan, todo: seq<Node>, mode: ApplyMode, now: int)
    requires Ordered(work) && (mode.DriftApply? ==> ActiveOk(site, work, mode.active))
    ensures Fits(site, GoApply(site, work, plan, todo, mode, now))
  {
    match mode
    case FirstApply => VerifyFits(site, work, work.order, [], PlainVerify, now);
    case UpdateApply(_) => VerifyFits(site, work, work.order, [], UpdateVerify, now);
    case RestoreApply =>
    case DriftApply(active) => VerifyFits(site, work, work.order, [], DriftVerify(active), now);
  }

  lemma RemoveFits(site: Site, work: Work, prev: Plan, todo: seq<Node>, now: int)
    requires Ordered(work)
    ensures Fits(site, GoRemove(site, work, prev, todo, now))
  {
    if todo == [] { ApplyFits(site, work, work.plan, work.order, UpdateApply(prev), now); }
  }

  lemma RollFits(site: Site, work: Work, plan: Plan, todo: seq<Node>, mode: RollMode, now: int)
    requires Ordered(work)
    ensures Fits(site, GoRoll(site, work, plan, todo, mode, now))
  {
    if todo == [] { ApplyFits(site, work, plan, PlanOrder(plan), RestoreApply, now); }
  }

  lemma FailedFits(site: Site, work: Work, mode: ApplyMode, now: int)
    requires Ordered(work)
    ensures Fits(site, GoFailedApply(site, work, mode, now))
  {
    match mode
    case FirstApply => RollFits(site, work, work.plan, WithRollback(work.plan, PlanOrder(work.plan)), FirstRoll, now);
    case UpdateApply(prev) => RollFits(site, work, prev, WithRollback(prev, PlanOrder(prev)), UpdateRoll, now);
    case RestoreApply =>
    case DriftApply(_) => RollFits(site, work, work.plan, WithRollback(work.plan, PlanOrder(work.plan)), DriftRoll, now);
  }

  lemma PlanFits(site: Site, key: Key, svc: Service, alloc: Allocations, now: int)
    ensures Fits(site, GoPlan(site, key, svc, alloc, now))
  {
    match site.render(svc.spec, alloc)
    case None =>
    case Some(plan) =>
      var hashes := PlanHashes(site, plan);
      var work := Work(key, svc, alloc, plan, PlanOrder(plan), hashes, HashesEqual(svc.status.configHashes, hashes), false);
      assert hashes.Keys == plan.nodes.Keys;
      assert Ordered(work);
      if svc.status.appliedSpec.Some? && !work.sameRender {
        if site.render(svc.status.appliedSpec.value, alloc).Some? {
          ApplyFits(site, work, plan, work.order, UpdateApply(site.render(svc.status.appliedSpec.value, alloc).value), now);
        }
      } else if work.sameRender {
        VerifyFits(site, work, work.order, [], PlainVerify, now);
      } else {
        ApplyFits(site, work, plan, work.order, FirstApply, now);
      }
  }

  lemma PrefixFits(site: Site, key: Key, svc: Service, id: int, waiting: seq<Attachment>, prefixes: map<Node, string>, now: int)
    ensures Fits(site, GoPrefix(site, key, svc, id, waiting, prefixes, now))
  {
    if waiting == [] { PlanFits(site, key, svc, Allocations(id, VrfName(id), prefixes), now); }
  }

  // ---- steps -------------------------------------------------------------------------------

  lemma LeaseStepsFit(site: Site, w: World, key: Key, svc: Service, value: int, used: set<int>, t: Turn)
    ensures Fits(site, PassOf(StepCreatingLease(site, w, key, svc, value, used, t), key))
    ensures Fits(site, PassOf(StepReadingLease(site, w, key, svc, value, used, t), key))
  {
    CreateHasNoWork(site, svc, value + 1, used);
    PrefixFits(site, key, svc, value, OrderedAttachments(svc.spec.attachments), map[], t.now);
  }

  lemma ListStepFits(site: Site, w: World, key: Key, svc: Service, t: Turn)
    requires PassOf(w, key) == ListingLeases(svc)
    ensures Fits(site, PassOf(StepListingLeases(site, w, key, svc, t), key))
  {
    CreateHasNoWork(site, svc, site.firstId, w.leases.Keys);
    PrefixFits(site, key, svc, t.pick, OrderedAttachments(svc.spec.attachments), map[], t.now);
  }

  lemma RemovingFits(site: Site, w: World, key: Key, work: Work, prev: Plan, todo: seq<Node>, t: Turn)
    requires todo != [] && Ordered(work)
    ensures Fits(site, PassOf(StepRemoving(site, w, key, work, prev, todo, t), key))
  {
    var pass := PassOf(StepRemoving(site, w, key, work, prev, todo, t), key);
    if t.exec.Accepted? || t.exec.Rejected? {
      RemoveFits(site, work, prev, todo[1..], t.now);
      assert pass == GoRemove(site, work, prev, todo[1..], t.now);
    } else {
      assert pass == Refusing(work.svc, ApplyKind);
    }
  }

  lemma ApplyingFits(site: Site, w: World, key: Key, work: Work, plan: Plan, todo: seq<Node>, mode: ApplyMode, t: Turn)
    requires todo != [] && Ordered(work) && (mode.DriftApply? ==> ActiveOk(site, work, mode.active))
    ensures Fits(site, PassOf(StepApplying(site, w, key, work, plan, todo, mode, t), key))
  {
    if t.exec.Accepted? { ApplyFits(site, work, plan, todo[1..], mode, t.now); } else { FailedFits(site, work, mode, t.now); }
  }

  lemma RollingBackFits(site: Site, w: World, key: Key, work: Work, plan: Plan, todo: seq<Node>, mode: RollMode, t: Turn)
    requires todo != [] && Ordered(work)
    ensures Fits(site, PassOf(StepRollingBack(site, w, key, work, plan, todo, mode, t), key))
  {
    RollFits(site, work, plan, todo[1..], mode, t.now);
  }

  lemma VerifyingFits(site: Site, w: World, key: Key, work: Work, todo: seq<Node>, seen: seq<NodeStatus>, mode: VerifyMode, t: Turn)
    requires todo != [] && Ordered(work) && (mode.DriftVerify? ==> ActiveOk(site, work, mode.active))
    ensures Fits(site, PassOf(StepVerifying(site, w, key, work, todo, seen, mode, t), key))
  {
    var seen' := seen + [NodeStatus(todo[0], t.verify.Passed?)];
    match t.verify
    case Passed => VerifyFits(site, work, todo[1..], seen', mode, t.now);
    case LocatorGone => VerifiedFits(site, work, seen', Some(LocatorKind), mode, t.now);
    case _ => VerifiedFits(site, work, seen', Some(CheckKind), mode, t.now);
  }

  lemma RecordingUpdateFits(site: Site, w: World, key: Key, work: Work, now: int, t: Turn)
    requires Ordered(work)
    ensures Fits(site, PassOf(StepRecordingUpdate(site, w, key, work, now, t), key))
  {
    if Written(w, key, t.api) {
      VerifyFits(site, work.(svc := StepRecordingUpdate(site, w, key, work, now, t).objects[key]), work.order, [], PlainVerify, t.now);
    }
  }

  lemma NotingDriftFits(site: Site, w: World, key: Key, work: Work, active: string, t: Turn)
    requires Ordered(work) && ActiveOk(site, work, active) && (Written(w, key, t.api) ==> !Unsteers(site, work, w.objects[key].spec))
    ensures Fits(site, PassOf(StepNotingDrift(site, w, key, work, active, t), key))
  {
    var w' := StepNotingDrift(site, w, key, work, active, t);
    var next := SetRefusal(work.svc.status, work.svc.generation, CheckKind, t.now);
    if Written(w, key, t.api) {
      ApplyFits(site, work.(svc := w'.objects[key]), work.plan, work.order, DriftApply(active), t.now);
    } else {
      ApplyFits(site, work.(svc := work.svc.(status := next)), work.plan, work.order, DriftApply(active), t.now);
    }
  }

  lemma ObservingFits(site: Site, w: World, key: Key, work: Work, failed: Option<Kind>, t: Turn)
    requires Ordered(work) && site.steerable(work.svc.spec, work.order)
    ensures Fits(site, PassOf(StepObserving(site, w, key, work, failed, t), key))
  {
    match t.path
    case Rides(spine) =>
      var waived := failed == Some(CheckKind) && spine != "" && spine != work.svc.spec.preferredSpine;
      var work', failed' := if waived then work.(skipRepair := true) else work, if waived then None else failed;
      PathFits(site, work', failed', spine, t.now);
      assert StepObserving(site, w, key, work, failed, t) == At(w, key, AfterPath(site, work', failed', spine, t.now));
      assert PassOf(StepObserving(site, w, key, work, failed, t), key) == AfterPath(site, work', failed', spine, t.now);
    case _ =>
  }

  lemma ProbingFits(site: Site, w: World, key: Key, work: Work, active: string, t: Turn)
    requires Ordered(work) && ActiveOk(site, work, active)
    ensures Fits(site, PassOf(StepProbing(site, w, key, work, active, t), key))
  {
    match t.probe
    case ProbePasses =>
      ReadyFits(site, work, Some(t.now), active, t.now);
      assert PassOf(StepProbing(site, w, key, work, active, t), key) == GoRecord(site, work, Some(t.now), active, t.now);
    case _ =>
  }

  lemma StartFits(site: Site, w: World, key: Key, t: Turn)
    requires PassOf(w, key).Idle?
    ensures Fits(site, PassOf(Start(site, w, key, t), key))
  {
    if key in w.objects {
      var svc := w.objects[key];
      if svc.deleting {
        FinalStartOn(site, w, key, t);
      } else if svc.finalizer && t.gate.None? && Reusable(site, svc, site.corr(key)) {
        PlanFits(site, key, svc, svc.status.allocations.value, t.now);
      }
    }
  }

  /** The server's answer brings in a spec of other hashes, or one that is not
      steered where the pass's own was. */
  predicate Diverts(site: Site, w: World, key: Key, t: Turn) {
    PicksUpOther(site, w, key, t) || (Refreshes(w, key, t) && Unsteers(site, PassOf(w, key).work, w.objects[key].spec))
  }

  predicate Unsteers(site: Site, work: Work, spec: ServiceSpec) {
    site.steerable(work.svc.spec, work.order) && !site.steerable(spec, work.order)
  }

  lemma StepFits(site: Site, w: World, key: Key, t: Turn)
    requires Fits(site, PassOf(w, key)) && !Diverts(site, w, key, t)
    ensures Fits(site, PassOf(Step(site, w, key, t), key))
  {
    match PassOf(w, key) {
      case Idle => StartFits(site, w, key, t);
      case ListingLeases(svc) => ListStepFits(site, w, key, svc, t);
      case CreatingLease(svc, value, used) => LeaseStepsFit(site, w, key, svc, value, used, t);
      case ReadingLease(svc, value, used) => LeaseStepsFit(site, w, key, svc, value, used, t);
      case ClaimingPrefix(svc, id, waiting, prefixes) =>
        if waiting != [] { PrefixFits(site, key, svc, id, waiting[1..], prefixes[waiting[0].node := t.address], t.now); }
        else { assert Step(site, w, key, t) == w; }
      case Removing(work, prev, todo) =>
        if todo != [] { RemovingFits(site, w, key, work, prev, todo, t); } else { assert Step(site, w, key, t) == w; }
      case Applying(work, plan, todo, mode) =>
        if todo != [] { ApplyingFits(site, w, key, work, plan, todo, mode, t); } else { assert Step(site, w, key, t) == w; }
      case RollingBack(work, plan, todo, mode) =>
        if todo != [] { RollingBackFits(site, w, key, work, plan, todo, mode, t); } else { assert Step(site, w, key, t) == w; }
      case Verifying(work, todo, seen, mode) =>
        if todo != [] { VerifyingFits(site, w, key, work, todo, seen, mode, t); } else { assert Step(site, w, key, t) == w; }
      case RecordingUpdate(work, now) => RecordingUpdateFits(site, w, key, work, now, t);
      case Observing(work, failed) => ObservingFits(site, w, key, work, failed, t);
      case NotingDrift(work, active) => NotingDriftFits(site, w, key, work, active, t);
      case Probing(work, active) => ProbingFits(site, w, key, work, active, t);
      case Recording(_, _, _) =>
      case _ => NoWorkFits(site, w, key, t);
    }
  }

  lemma NoWorkFits(site: Site, w: World, key: Key, t: Turn)
    requires var p := PassOf(w, key);
      !HasWork(p) && !p.Idle? && !p.ListingLeases? && !p.CreatingLease? && !p.ReadingLease? && !p.ClaimingPrefix?
    ensures Fits(site, PassOf(Step(site, w, key, t), key))
  {
    var p := PassOf(w, key);
    if p.AddingFinalizer? || p.Refusing? || p.ClaimingId? || p.AwaitingId? || p.ListingClaims? || p.DeletingClaims? { QuietStepsOn(site, w, key, t); }
    else { FinalStepsOn(site, w, key, t); }
  }

  // ---- runs --------------------------------------------------------------------------------

  /** No refresh of a pass of this service diverts it. */
  ghost predicate NeverDiverted(site: Site, moves: seq<Move>, key: Key) {
    forall n: nat :: n < |moves| ==> !(Own(moves[n], key) && Diverts(site, Upto(site, moves, n), key, moves[n].turn))
  }

  ghost predicate Sound(site: Site, pass: Pass) {
    Fits(site, pass) && (HasWork(pass) ==> Matches(site, pass.work))
  }

  lemma SoundMove(site: Site, w: World, m: Move, key: Key)
    requires SiteOk(site) && Inv(site, w) && Sound(site, PassOf(w, key))
    requires !(Own(m, key) && Diverts(site, w, key, m.turn))
    ensures Sound(site, PassOf(Apply(site, w, m), key))
  {
    MoveOn(site, w, m, key);
    if Own(m, key) { StepFits(site, w, key, m.turn); }
  }

  lemma {:induction false} SoundRun(site: Site, moves: seq<Move>, key: Key, n: nat)
    requires SiteOk(site) && NeverDiverted(site, moves, key) && n <= |moves|
    ensures Sound(site, PassOf(Upto(site, moves, n), key))
    decreases n
  {
    if n > 0 {
      SoundRun(site, moves, key, n - 1);
      UptoNext(site, moves, n - 1);
      SoundMove(site, Upto(site, moves, n - 1), moves[n - 1], key);
    } else {
      assert moves[..0] == [];
    }
  }
}
