/** The record against the render: exactly when the recorded hashes are those of
    re-rendering status.appliedSpec. A pass renders once. Two of its status
    writes replace the local object by the server's answer, spec included, and
    the ready stage records the local spec beside the hashes of the render. */
module PassRecord {
  import opened Text
  import opened ServiceObjects
  import opened PassMachine
  import opened PassInvariant
  import opened PassRuns
  import opened PassSafety

  /** The recorded hashes are those of the recorded spec under the recorded
      identifiers. */
  ghost predicate Faithful(site: Site, st: Status) {
    st.allocations.Some? && st.appliedSpec.Some? ==> IsRender(site, st.appliedSpec.value, st.allocations.value, st.configHashes)
  }

  predicate HasWork(pass: Pass) {
    || pass.Removing? || pass.Applying? || pass.RollingBack? || pass.Verifying? || pass.RecordingUpdate?
    || pass.Observing? || pass.NotingDrift? || pass.Probing? || pass.Recording?
  }

  /** The local spec renders to the hashes the pass would record with it. */
  predicate Matches(site: Site, work: Work) {
    IsRender(site, work.svc.spec, work.alloc, work.hashes)
  }

  /** The answer of a status write replaces the local object. */
  predicate Refreshes(w: World, key: Key, t: Turn) {
    (PassOf(w, key).RecordingUpdate? || PassOf(w, key).NotingDrift?) && Written(w, key, t.api)
  }

  /** The spec in that answer renders to other hashes. */
  predicate PicksUpOther(site: Site, w: World, key: Key, t: Turn) {
    Refreshes(w, key, t) && !IsRender(site, w.objects[key].spec, PassOf(w, key).work.alloc, PassOf(w, key).work.hashes)
  }

  /** A write of the whole record that lands. */
  predicate Records(w: World, key: Key, t: Turn) {
    (PassOf(w, key).RecordingUpdate? || PassOf(w, key).Recording?) && key in w.objects && (t.api.Done? || t.api.landed)
  }

  // ---- what a pass carries from stage to stage -------------------------------------------

  /** A stage reached from this work keeps its spec, identifiers and hashes. */
  predicate Carries(work: Work, pass: Pass) {
    HasWork(pass) ==> pass.work.svc.spec == work.svc.spec && pass.work.alloc == work.alloc && pass.work.hashes == work.hashes
  }

  lemma ReadyCarries(site: Site, work: Work, dataPath: Option<int>, active: string, now: int)
    ensures Carries(work, GoRecord(site, work, dataPath, active, now))
    ensures Carries(work, GoReady(site, work, active, now))
  {
  }

  lemma PathCarries(site: Site, work: Work, failed: Option<Kind>, active: string, now: int)
    ensures Carries(work, AfterPath(site, work, failed, active, now))
  {
    if failed.None? { ReadyCarries(site, work, None, active, now); }
  }

  lemma VerifiedCarries(site: Site, work: Work, seen: seq<NodeStatus>, failed: Option<Kind>, mode: VerifyMode, now: int)
    ensures Carries(work, AfterVerify(site, work, seen, failed, mode, now))
  {
    var work' := work.(svc := work.svc.(status := work.svc.status.(nodes := seen)));
    match mode
    case PlainVerify => PathCarries(site, work', failed, "", now);
    case UpdateVerify =>
    case DriftVerify(active) => ReadyCarries(site, work', None, active, now);
  }

  lemma VerifyCarries(site: Site, work: Work, todo: seq<Node>, seen: seq<NodeStatus>, mode: VerifyMode, now: int)
    ensures Carries(work, GoVerify(site, work, todo, seen, mode, now))
  {
    if todo == [] { VerifiedCarries(site, work, seen, None, mode, now); }
  }

  lemma ApplyCarries(site: Site, work: Work, plan: Plan, todo: seq<Node>, mode: ApplyMode, now: int)
    ensures Carries(work, GoApply(site, work, plan, todo, mode, now))
  {
    match mode
    case FirstApply => VerifyCarries(site, work, work.order, [], PlainVerify, now);
    case UpdateApply(_) => VerifyCarries(site, work, work.order, [], UpdateVerify, now);
    case RestoreApply =>
    case DriftApply(active) => VerifyCarries(site, work, work.order, [], DriftVerify(active), now);
  }

  lemma RollCarries(site: Site, work: Work, plan: Plan, todo: seq<Node>, mode: RollMode, now: int)
    ensures Carries(work, GoRoll(site, work, plan, todo, mode, now))
  {
    if todo == [] { ApplyCarries(site, work, plan, PlanOrder(plan), RestoreApply, now); }
  }

  lemma FailedCarries(site: Site, work: Work, mode: ApplyMode, now: int)
    ensures Carries(work, GoFailedApply(site, work, mode, now))
  {
    match mode
    case FirstApply => RollCarries(site, work, work.plan, WithRollback(work.plan, PlanOrder(work.plan)), FirstRoll, now);
    case UpdateApply(prev) => RollCarries(site, work, prev, WithRollback(prev, PlanOrder(prev)), UpdateRoll, now);
    case RestoreApply =>
    case DriftApply(_) => RollCarries(site, work, work.plan, WithRollback(work.plan, PlanOrder(work.plan)), DriftRoll, now);
  }

  /** A fresh render matches its spec. */
  lemma PlanMatches(site: Site, key: Key, svc: Service, alloc: Allocations, now: int)
    ensures var pass := GoPlan(site, key, svc, alloc, now); HasWork(pass) ==> Matches(site, pass.work)
  {
    match site.render(svc.spec, alloc)
    case None =>
    case Some(plan) =>
      var hashes := PlanHashes(site, plan);
      var work := Work(key, svc, alloc, plan, PlanOrder(plan), hashes, HashesEqual(svc.status.configHashes, hashes), false);
      assert Matches(site, work);
      if svc.status.appliedSpec.Some? && !work.sameRender {
        if site.render(svc.status.appliedSpec.value, alloc).Some? {
          ApplyCarries(site, work, plan, work.order, UpdateApply(site.render(svc.status.appliedSpec.value, alloc).value), now);
        }
      } else if work.sameRender {
        VerifyCarries(site, work, work.order, [], PlainVerify, now);
      } else {
        ApplyCarries(site, work, plan, work.order, FirstApply, now);
      }
  }

  lemma {:induction false} CreateHasNoWork(site: Site, svc: Service, value: int, used: set<int>)
    ensures !HasWork(GoCreate(site, svc, value, used))
    decreases site.lastId - value + 1
  {
    if value <= site.lastId && value in used { CreateHasNoWork(site, svc, value + 1, used); }
  }

  /** What one step makes of the work: a refresh decides anew whether the local
      spec matches the hashes, a fresh render matches, and nothing else changes
      that. */
  ghost predicate StepsOn(site: Site, w: World, key: Key, t: Turn, pass: Pass) {
    HasWork(pass) ==>
      (Matches(site, pass.work) <==>
       if Refreshes(w, key, t) then !PicksUpOther(site, w, key, t)
       else HasWork(PassOf(w, key)) ==> Matches(site, PassOf(w, key).work))
  }

  lemma LeaseStepsOn(site: Site, w: World, key: Key, svc: Service, value: int, used: set<int>, t: Turn)
    ensures var pass := PassOf(StepCreatingLease(site, w, key, svc, value, used, t), key); HasWork(pass) ==> Matches(site, pass.work)
    ensures var pass := PassOf(StepReadingLease(site, w, key, svc, value, used, t), key); HasWork(pass) ==> Matches(site, pass.work)
  {
    CreateHasNoWork(site, svc, value + 1, used);
    PrefixMatches(site, key, svc, value, OrderedAttachments(svc.spec.attachments), map[], t.now);
  }

  lemma ListStepOn(site: Site, w: World, key: Key, svc: Service, t: Turn)
    requires PassOf(w, key) == ListingLeases(svc)
    ensures var pass := PassOf(StepListingLeases(site, w, key, svc, t), key); HasWork(pass) ==> Matches(site, pass.work)
  {
    CreateHasNoWork(site, svc, site.firstId, w.leases.Keys);
    PrefixMatches(site, key, svc, t.pick, OrderedAttachments(svc.spec.attachments), map[], t.now);
  }

  lemma ClaimStepsOn(site: Site, w: World, key: Key, t: Turn)
    requires var p := PassOf(w, key); p.ListingLeases? || p.CreatingLease? || p.ReadingLease? || (p.ClaimingPrefix? && p.waiting != [])
    ensures StepsOn(site, w, key, t, PassOf(Step(site, w, key, t), key))
  {
    hide Start, StepListingLeases, StepCreatingLease, StepReadingLease, GoPrefix, Matches;
    var p := PassOf(w, key);
    if p.ListingLeases? { ListStepOn(site, w, key, p.svc, t); }
    else if p.ClaimingPrefix? {
      PrefixMatches(site, key, p.svc, p.id, p.waiting[1..], p.prefixes[p.waiting[0].node := t.address], t.now);
    }
    else { LeaseStepsOn(site, w, key, p.svc, p.value, p.used, t); }
  }

  lemma PrefixMatches(site: Site, key: Key, svc: Service, id: int, waiting: seq<Attachment>, prefixes: map<Node, string>, now: int)
    ensures var pass := GoPrefix(site, key, svc, id, waiting, prefixes, now); HasWork(pass) ==> Matches(site, pass.work)
  {
    if waiting == [] { PlanMatches(site, key, svc, Allocations(id, VrfName(id), prefixes), now); }
  }

  /** A call that refreshes nothing and goes on with the same work. */
  lemma CarriedOn(site: Site, w: World, key: Key, t: Turn, work: Work, pass: Pass)
    requires HasWork(PassOf(w, key)) && !Refreshes(w, key, t)
    requires work.svc.spec == PassOf(w, key).work.svc.spec && work.alloc == PassOf(w, key).work.alloc && work.hashes == PassOf(w, key).work.hashes
    requires Carries(work, pass)
    ensures StepsOn(site, w, key, t, pass)
  {
  }

  lemma RemovingOn(site: Site, w: World, key: Key, work: Work, prev: Plan, todo: seq<Node>, t: Turn)
    requires todo != []
    ensures Carries(work, PassOf(StepRemoving(site, w, key, work, prev, todo, t), key))
  {
    ApplyCarries(site, work, work.plan, work.order, UpdateApply(prev), t.now);
  }

  lemma ApplyingOn(site: Site, w: World, key: Key, work: Work, plan: Plan, todo: seq<Node>, mode: ApplyMode, t: Turn)
    requires todo != []
    ensures Carries(work, PassOf(StepApplying(site, w, key, work, plan, todo, mode, t), key))
  {
    ApplyCarries(site, work, plan, todo[1..], mode, t.now);
    FailedCarries(site, work, mode, t.now);
  }

  lemma RollingBackOn(site: Site, w: World, key: Key, work: Work, plan: Plan, todo: seq<Node>, mode: RollMode, t: Turn)
    requires todo != []
    ensures Carries(work, PassOf(StepRollingBack(site, w, key, work, plan, todo, mode, t), key))
  {
    RollCarries(site, work, plan, todo[1..], mode, t.now);
  }

  lemma VerifyingOn(site: Site, w: World, key: Key, work: Work, todo: seq<Node>, seen: seq<NodeStatus>, mode: VerifyMode, t: Turn)
    requires todo != []
    ensures Carries(work, PassOf(StepVerifying(site, w, key, work, todo, seen, mode, t), key))
  {
    var seen' := seen + [NodeStatus(todo[0], t.verify.Passed?)];
    match t.verify
    case Passed => VerifyCarries(site, work, todo[1..], seen', mode, t.now);
    case LocatorGone => VerifiedCarries(site, work, seen', Some(LocatorKind), mode, t.now);
    case _ => VerifiedCarries(site, work, seen', Some(CheckKind), mode, t.now);
  }

  lemma DeviceStepsOn(site: Site, w: World, key: Key, t: Turn)
    requires var p := PassOf(w, key); (p.Removing? || p.Applying? || p.RollingBack? || p.Verifying?) && p.todo != []
    ensures StepsOn(site, w, key, t, PassOf(Step(site, w, key, t), key))
  {
    hide Start, StepRemoving, StepApplying, StepRollingBack, StepVerifying, Matches;
    var p := PassOf(w, key);
    if p.Removing? { RemovingOn(site, w, key, p.work, p.prev, p.todo, t); }
    else if p.Applying? { ApplyingOn(site, w, key, p.work, p.plan, p.todo, p.applyMode, t); }
    else if p.RollingBack? { RollingBackOn(site, w, key, p.work, p.plan, p.todo, p.rollMode, t); }
    else { VerifyingOn(site, w, key, p.work, p.todo, p.seen, p.verifyMode, t); }
    CarriedOn(site, w, key, t, p.work, PassOf(Step(site, w, key, t), key));
  }

  lemma ObservingOn(site: Site, w: World, key: Key, work: Work, failed: Option<Kind>, t: Turn)
    ensures Carries(work, PassOf(StepObserving(site, w, key, work, failed, t), key))
  {
    if t.path.Rides? {
      PathCarries(site, work, failed, t.path.spine, t.now);
      PathCarries(site, work.(skipRepair := true), None, t.path.spine, t.now);
    }
  }

  lemma ProbingOn(site: Site, w: World, key: Key, work: Work, active: string, t: Turn)
    ensures Carries(work, PassOf(StepProbing(site, w, key, work, active, t), key))
  {
    ReadyCarries(site, work, Some(t.now), active, t.now);
  }

  /** The update's record write: after a good answer the pass goes on with the
      server's object. */
  lemma RecordingUpdateOn(site: Site, w: World, key: Key, work: Work, now: int, t: Turn)
    ensures var w' := StepRecordingUpdate(site, w, key, work, now, t);
      if Written(w, key, t.api) then
        key in w'.objects && w'.objects[key].spec == w.objects[key].spec && Carries(work.(svc := w'.objects[key]), PassOf(w', key))
      else !HasWork(PassOf(w', key))
  {
    var w' := StepRecordingUpdate(site, w, key, work, now, t);
    if Written(w, key, t.api) { VerifyCarries(site, work.(svc := w'.objects[key]), work.order, [], PlainVerify, t.now); }
  }

  lemma NotingDriftOn(site: Site, w: World, key: Key, work: Work, active: string, t: Turn)
    ensures var w' := StepNotingDrift(site, w, key, work, active, t);
      if Written(w, key, t.api) then
        key in w'.objects && w'.objects[key].spec == w.objects[key].spec && Carries(work.(svc := w'.objects[key]), PassOf(w', key))
      else Carries(work, PassOf(w', key))
  {
    var w' := StepNotingDrift(site, w, key, work, active, t);
    var next := SetRefusal(work.svc.status, work.svc.generation, CheckKind, t.now);
    if Written(w, key, t.api) {
      ApplyCarries(site, work.(svc := w'.objects[key]), work.plan, work.order, DriftApply(active), t.now);
    } else {
      ApplyCarries(site, work.(svc := work.svc.(status := next)), work.plan, work.order, DriftApply(active), t.now);
    }
  }

  /** A refreshed pass goes on with the server's spec. */
  lemma RefreshedOn(site: Site, w: World, key: Key, t: Turn, work: Work, pass: Pass)
    requires Refreshes(w, key, t) && Carries(work, pass)
    requires work.svc.spec == w.objects[key].spec && work.alloc == PassOf(w, key).work.alloc && work.hashes == PassOf(w, key).work.hashes
    ensures StepsOn(site, w, key, t, pass)
  {
  }

  lemma UpdateStepsOn(site: Site, w: World, key: Key, work: Work, now: int, t: Turn)
    requires PassOf(w, key) == RecordingUpdate(work, now)
    ensures StepsOn(site, w, key, t, PassOf(StepRecordingUpdate(site, w, key, work, now, t), key))
  {
    var w' := StepRecordingUpdate(site, w, key, work, now, t);
    RecordingUpdateOn(site, w, key, work, now, t);
    if Written(w, key, t.api) { RefreshedOn(site, w, key, t, work.(svc := w'.objects[key]), PassOf(w', key)); }
  }

  lemma DriftStepsOn(site: Site, w: World, key: Key, work: Work, active: string, t: Turn)
    requires PassOf(w, key) == NotingDrift(work, active)
    ensures StepsOn(site, w, key, t, PassOf(StepNotingDrift(site, w, key, work, active, t), key))
  {
    var w' := StepNotingDrift(site, w, key, work, active, t);
    NotingDriftOn(site, w, key, work, active, t);
    if Written(w, key, t.api) {
      RefreshedOn(site, w, key, t, work.(svc := w'.objects[key]), PassOf(w', key));
    } else {
      CarriedOn(site, w, key, t, work, PassOf(w', key));
    }
  }

  lemma StatusStepsOn(site: Site, w: World, key: Key, t: Turn)
    requires var p := PassOf(w, key); p.Observing? || p.Probing? || p.Recording?
    ensures StepsOn(site, w, key, t, PassOf(Step(site, w, key, t), key))
  {
    hide Start, StepObserving, StepProbing, WriteStatus, Matches;
    var p := PassOf(w, key);
    if p.Observing? { ObservingOn(site, w, key, p.work, p.failed, t); }
    else if p.Probing? { ProbingOn(site, w, key, p.work, p.active, t); }
    CarriedOn(site, w, key, t, p.work, PassOf(Step(site, w, key, t), key));
  }

  lemma QuietStepsOn(site: Site, w: World, key: Key, t: Turn)
    requires var p := PassOf(w, key);
      p.AddingFinalizer? || p.Refusing? || p.ClaimingId? || p.AwaitingId? || p.ListingClaims? || p.DeletingClaims?
    ensures !HasWork(PassOf(Step(site, w, key, t), key))
  {
    hide Start, MergePatch, OwnClaims;
  }

  lemma FinalStepsOn(site: Site, w: World, key: Key, t: Turn)
    requires var p := PassOf(w, key);
      p.ListingOwnLeases? || p.DeletingLeases? || p.FinalRollback? || p.NotingFinalizing? || p.Stripping? || (p.ClaimingPrefix? && p.waiting == [])
    ensures !HasWork(PassOf(Step(site, w, key, t), key))
  {
    if PassOf(w, key).FinalRollback? || PassOf(w, key).NotingFinalizing? || PassOf(w, key).Stripping? { DeleteStepsOn(site, w, key, t); }
    else { ReleaseStepsOn(site, w, key, t); }
  }

  lemma DeleteStepsOn(site: Site, w: World, key: Key, t: Turn)
    requires var p := PassOf(w, key); p.FinalRollback? || p.NotingFinalizing? || p.Stripping?
    ensures !HasWork(PassOf(Step(site, w, key, t), key))
  {
    hide Start, WriteStatus;
  }

  lemma ReleaseStepsOn(site: Site, w: World, key: Key, t: Turn)
    requires var p := PassOf(w, key); p.ListingOwnLeases? || p.DeletingLeases? || (p.ClaimingPrefix? && p.waiting == [])
    ensures !HasWork(PassOf(Step(site, w, key, t), key))
  {
    hide Start;
  }

  lemma StartOn(site: Site, w: World, key: Key, t: Turn)
    requires PassOf(w, key).Idle?
    ensures var pass := PassOf(Start(site, w, key, t), key); HasWork(pass) ==> Matches(site, pass.work)
  {
    if key in w.objects {
      var svc := w.objects[key];
      if svc.deleting {
        FinalStartOn(site, w, key, t);
      } else if svc.finalizer && t.gate.None? && Reusable(site, svc, site.corr(key)) {
        PlanMatches(site, key, svc, svc.status.allocations.value, t.now);
      }
    }
  }

  lemma FinalStartOn(site: Site, w: World, key: Key, t: Turn)
    requires key in w.objects && w.objects[key].deleting && PassOf(w, key).Idle?
    ensures !HasWork(PassOf(Start(site, w, key, t), key))
  {
  }

  lemma StepKeepsOn(site: Site, w: World, key: Key, t: Turn)
    ensures StepsOn(site, w, key, t, PassOf(Step(site, w, key, t), key))
  {
    var p := PassOf(w, key);
    if p.Idle? { StartOn(site, w, key, t); }
    else if p.ListingLeases? || p.CreatingLease? || p.ReadingLease? || (p.ClaimingPrefix? && p.waiting != []) { ClaimStepsOn(site, w, key, t); }
    else if p.Removing? || p.Applying? || p.RollingBack? || p.Verifying? {
      if p.todo != [] { DeviceStepsOn(site, w, key, t); } else { assert Step(site, w, key, t) == w; }
    }
    else if p.RecordingUpdate? { UpdateStepsOn(site, w, key, p.work, p.now, t); }
    else if p.NotingDrift? { DriftStepsOn(site, w, key, p.work, p.active, t); }
    else if HasWork(p) { StatusStepsOn(site, w, key, t); }
    else if p.AddingFinalizer? || p.Refusing? || p.ClaimingId? || p.AwaitingId? || p.ListingClaims? || p.DeletingClaims? { QuietStepsOn(site, w, key, t); }
    else { FinalStepsOn(site, w, key, t); }
  }

  // ---- what a step makes of the record ---------------------------------------------------

  lemma ConditionWriteKeeps(site: Site, stored: Status, base: Status, next: Status)
    requires next == base.(conditions := next.conditions, observedGeneration := next.observedGeneration)
    ensures Faithful(site, MergePatch(stored, base, next)) <==> Faithful(site, stored)
  {
  }

  /** The record a ready write leaves is faithful exactly when the local spec
      renders to the hashes written beside it. */
  lemma ReadyWriteIs(site: Site, stored: Status, work: Work, base: Status, next: Status)
    requires SameRecord(base, stored)
    requires next.allocations == Some(work.alloc) && next.appliedSpec == Some(work.svc.spec) && next.configHashes == work.hashes
    ensures Faithful(site, MergePatch(stored, base, next)) <==> Matches(site, work)
  {
  }

  lemma RecordStep(site: Site, w: World, key: Key, t: Turn)
    requires KeyOk(site, w, key) && Records(w, key, t)
    ensures key in Step(site, w, key, t).objects
    ensures Faithful(site, Step(site, w, key, t).objects[key].status) <==> Matches(site, PassOf(w, key).work)
  {
    var stored := w.objects[key].status;
    match PassOf(w, key)
    case RecordingUpdate(work, now) =>
      var base := work.svc.status;
      ReadyWriteIs(site, stored, work, base, SetReadyOutcome(base, work.svc.generation, work.hashes, work.svc.spec, site.corr(key),
                                                             base.activePath, work.alloc, now));
    case Recording(work, base, next) => ReadyWriteIs(site, stored, work, base, next);
  }

  lemma OtherStep(site: Site, w: World, key: Key, t: Turn)
    requires KeyOk(site, w, key) && !Records(w, key, t) && key in Step(site, w, key, t).objects
    ensures key in w.objects
    ensures Faithful(site, Step(site, w, key, t).objects[key].status) <==> Faithful(site, w.objects[key].status)
  {
    StepObjects(site, w, key, t);
    var p := PassOf(w, key);
    if p.Refusing? || p.NotingFinalizing? || p.NotingDrift? { ConditionStep(site, w, key, t); }
    else if !p.RecordingUpdate? && !p.Recording? { OnlyStatusSteps(site, w, key, t); }
    else { hide Start; }
  }

  /** A write of the conditions leaves the record as it is. */
  lemma ConditionStep(site: Site, w: World, key: Key, t: Turn)
    requires var p := PassOf(w, key); p.Refusing? || p.NotingFinalizing? || p.NotingDrift?
    requires key in w.objects && key in Step(site, w, key, t).objects
    ensures Faithful(site, Step(site, w, key, t).objects[key].status) <==> Faithful(site, w.objects[key].status)
  {
    var base, next := ConditionsWritten(site, w, key, t);
    hide Faithful, Step, MergePatch;
    ConditionWriteKeeps(site, w.objects[key].status, base, next);
  }

  /** Only conditions and the observed generation travel in such a write. */
  lemma ConditionsWritten(site: Site, w: World, key: Key, t: Turn) returns (base: Status, next: Status)
    requires var p := PassOf(w, key); p.Refusing? || p.NotingFinalizing? || p.NotingDrift?
    requires key in w.objects && key in Step(site, w, key, t).objects
    ensures next == base.(conditions := next.conditions, observedGeneration := next.observedGeneration)
    ensures var st, st' := w.objects[key].status, Step(site, w, key, t).objects[key].status; st' == st || st' == MergePatch(st, base, next)
  {
    match PassOf(w, key)
    case Refusing(svc, kind) => base, next := svc.status, SetRefusal(svc.status, svc.generation, kind, t.now);
      LastWriteIs(site, w, key, t, base, next);
    case NotingFinalizing(svc) => base, next := svc.status, SetFinalizing(svc.status, svc.generation, t.now);
      LastWriteIs(site, w, key, t, base, next);
    case NotingDrift(work, active) => base, next := work.svc.status, SetRefusal(work.svc.status, work.svc.generation, CheckKind, t.now);
      DriftWriteIs(site, w, key, t, work, active);
    hide Step, MergePatch;
  }

  lemma LastWriteIs(site: Site, w: World, key: Key, t: Turn, base: Status, next: Status)
    requires match PassOf(w, key)
      case Refusing(svc, kind) => base == svc.status && next == SetRefusal(svc.status, svc.generation, kind, t.now)
      case NotingFinalizing(svc) => base == svc.status && next == SetFinalizing(svc.status, svc.generation, t.now)
      case _ => false
    ensures Step(site, w, key, t) == At(WriteStatus(w, key, base, next, t.api), key, Idle)
  {
    hide Start, MergePatch, SetRefusal, SetFinalizing, WriteStatus, At;
  }

  lemma DriftWriteIs(site: Site, w: World, key: Key, t: Turn, work: Work, active: string)
    requires PassOf(w, key) == NotingDrift(work, active)
    ensures Step(site, w, key, t).objects ==
      WriteStatus(w, key, work.svc.status, SetRefusal(work.svc.status, work.svc.generation, CheckKind, t.now), t.api).objects
  {
    hide Start, MergePatch, SetRefusal, GoApply, WriteStatus;
  }

  // ---- runs --------------------------------------------------------------------------------

  ghost predicate Kept(site: Site, w: World, key: Key) {
    key in w.objects ==> Faithful(site, w.objects[key].status)
  }

  predicate Own(m: Move, key: Key) {
    m.PassStep? && m.key == key
  }

  /** One move: whoever moves, a record changes hands only in a landed write of the
      service's own pass. */
  lemma MoveKept(site: Site, w: World, m: Move, key: Key)
    requires SiteOk(site) && Inv(site, w)
    ensures Own(m, key) && Records(w, key, m.turn) ==>
      (Kept(site, Apply(site, w, m), key) <==> Matches(site, PassOf(w, key).work))
    ensures !(Own(m, key) && Records(w, key, m.turn)) ==> (Kept(site, w, key) ==> Kept(site, Apply(site, w, m), key))
  {
    assert KeyOk(site, w, key);
    match m
    case PassStep(k, t) =>
      assert KeyOk(site, w, k);
      if k != key {
        StepOwn(site, w, k, t);
        assert Obj(Step(site, w, k, t), key) == Obj(w, key);
      } else if Records(w, key, t) {
        RecordStep(site, w, key, t);
      } else if key in Step(site, w, key, t).objects {
        OtherStep(site, w, key, t);
      }
    case _ =>
  }

  lemma MoveOn(site: Site, w: World, m: Move, key: Key)
    requires SiteOk(site) && Inv(site, w)
    ensures Own(m, key) ==> StepsOn(site, w, key, m.turn, PassOf(Apply(site, w, m), key))
    ensures !Own(m, key) ==> PassOf(Apply(site, w, m), key) == PassOf(w, key)
  {
    if Own(m, key) {
      StepKeepsOn(site, w, key, m.turn);
    } else if m.PassStep? {
      assert KeyOk(site, w, m.key);
      StepOwn(site, w, m.key, m.turn);
    }
  }

  /** The world after the first n moves. */
  function Upto(site: Site, moves: seq<Move>, n: nat): World
    requires n <= |moves|
  {
    Run(site, EmptyWorld, moves[..n])
  }

  lemma UptoNext(site: Site, moves: seq<Move>, n: nat)
    requires SiteOk(site) && n < |moves|
    ensures Upto(site, moves, n + 1) == Apply(site, Upto(site, moves, n), moves[n]) && Inv(site, Upto(site, moves, n))
  {
    assert moves[..n + 1][..n] == moves[..n];
    RunOk(site, moves[..n]);
  }

  ghost predicate RefreshAt(site: Site, moves: seq<Move>, key: Key, k: nat)
    requires k < |moves|
  {
    Own(moves[k], key) && Refreshes(Upto(site, moves, k), key, moves[k].turn)
  }

  /** Move i refreshed the local object with a spec of other hashes, and the same
      pass, not refreshed again, still holds its work after n moves. */
  ghost predicate Tainted(site: Site, moves: seq<Move>, key: Key, i: nat, n: nat)
    requires n <= |moves|
  {
    && i < n && Own(moves[i], key) && PicksUpOther(site, Upto(site, moves, i), key, moves[i].turn)
    && (forall k :: i < k <= n ==> HasWork(PassOf(Upto(site, moves, k), key)))
    && (forall k :: i < k < n ==> !RefreshAt(site, moves, key, k))
  }

  /** And move j writes that pass's record. */
  ghost predicate Breaks(site: Site, moves: seq<Move>, key: Key, i: nat, j: nat) {
    j < |moves| && Tainted(site, moves, key, i, j) && Own(moves[j], key) && Records(Upto(site, moves, j), key, moves[j].turn)
  }

  /** One move: a pass at work is mismatched after it exactly when the move
      refreshed it with other hashes, or did not refresh it and it was before. */
  lemma MismatchMove(site: Site, w: World, m: Move, key: Key)
    requires SiteOk(site) && Inv(site, w) && HasWork(PassOf(Apply(site, w, m), key))
    ensures !Matches(site, PassOf(Apply(site, w, m), key).work) <==>
      (Own(m, key) && PicksUpOther(site, w, key, m.turn)) ||
      (!(Own(m, key) && Refreshes(w, key, m.turn)) && HasWork(PassOf(w, key)) && !Matches(site, PassOf(w, key).work))
  {
    MoveOn(site, w, m, key);
  }

  ghost predicate MismatchAt(site: Site, moves: seq<Move>, key: Key, n: nat)
    requires n <= |moves|
  {
    HasWork(PassOf(Upto(site, moves, n), key)) && !Matches(site, PassOf(Upto(site, moves, n), key).work)
  }

  lemma TaintStarts(site: Site, moves: seq<Move>, key: Key, i: nat)
    requires SiteOk(site) && i < |moves| && Own(moves[i], key) && PicksUpOther(site, Upto(site, moves, i), key, moves[i].turn)
    requires HasWork(PassOf(Upto(site, moves, i + 1), key))
    ensures MismatchAt(site, moves, key, i + 1)
  {
    UptoNext(site, moves, i);
    MismatchMove(site, Upto(site, moves, i), moves[i], key);
  }

  lemma TaintGoesOn(site: Site, moves: seq<Move>, key: Key, n: nat)
    requires SiteOk(site) && n < |moves| && MismatchAt(site, moves, key, n) && !RefreshAt(site, moves, key, n)
    requires HasWork(PassOf(Upto(site, moves, n + 1), key))
    ensures MismatchAt(site, moves, key, n + 1)
  {
    UptoNext(site, moves, n);
    MismatchMove(site, Upto(site, moves, n), moves[n], key);
  }

  lemma {:induction false} TaintedIsMismatched(site: Site, moves: seq<Move>, key: Key, i: nat, n: nat)
    requires SiteOk(site) && n <= |moves| && Tainted(site, moves, key, i, n)
    ensures MismatchAt(site, moves, key, n)
    decreases n
  {
    hide MismatchAt, Upto, PicksUpOther, RefreshAt, HasWork;
    if i < n - 1 {
      TaintedBefore(site, moves, key, i, n - 1);
      TaintedIsMismatched(site, moves, key, i, n - 1);
      TaintGoesOn(site, moves, key, n - 1);
    } else {
      TaintStarts(site, moves, key, i);
    }
  }

  lemma TaintedBefore(site: Site, moves: seq<Move>, key: Key, i: nat, n: nat)
    requires i < n < |moves| && Tainted(site, moves, key, i, n + 1)
    ensures Tainted(site, moves, key, i, n) && !RefreshAt(site, moves, key, n)
  {
  }

  lemma {:induction false} MismatchIsTainted(site: Site, moves: seq<Move>, key: Key, n: nat) returns (i: nat)
    requires SiteOk(site) && n <= |moves|
    requires MismatchAt(site, moves, key, n)
    ensures Tainted(site, moves, key, i, n)
    decreases n
  {
    assert n > 0 by { assert moves[..0] == []; }
    var w, m := Upto(site, moves, n - 1), moves[n - 1];
    UptoNext(site, moves, n - 1);
    MismatchMove(site, w, m, key);
    if Own(m, key) && PicksUpOther(site, w, key, m.turn) {
      i := n - 1;
      FreshlyTainted(site, moves, key, i);
    } else {
      i := MismatchIsTainted(site, moves, key, n - 1);
      TaintedOn(site, moves, key, i, n - 1);
    }
  }

  lemma FreshlyTainted(site: Site, moves: seq<Move>, key: Key, i: nat)
    requires i < |moves| && Own(moves[i], key) && PicksUpOther(site, Upto(site, moves, i), key, moves[i].turn)
    requires HasWork(PassOf(Upto(site, moves, i + 1), key))
    ensures Tainted(site, moves, key, i, i + 1)
  {
  }

  lemma TaintedOn(site: Site, moves: seq<Move>, key: Key, i: nat, n: nat)
    requires n < |moves| && Tainted(site, moves, key, i, n) && !RefreshAt(site, moves, key, n)
    requires HasWork(PassOf(Upto(site, moves, n + 1), key))
    ensures Tainted(site, moves, key, i, n + 1)
  {
  }

  /** Over every run: the record of a service is faithful at every moment exactly
      when no pass that was refreshed with a spec of other hashes got to write
      its record. */
  lemma RecordedHashesMatchAppliedSpec(site: Site, moves: seq<Move>, key: Key)
    requires SiteOk(site)
    ensures (forall n: nat :: n <= |moves| ==> Kept(site, Upto(site, moves, n), key)) <==>
            !(exists i: nat, j: nat :: Breaks(site, moves, key, i, j))
  {
    if i: nat, j: nat :| Breaks(site, moves, key, i, j) {
      BreakIsUnfaithful(site, moves, key, i, j);
      assert !Kept(site, Upto(site, moves, j + 1), key);
    } else {
      forall n: nat | n <= |moves| ensures Kept(site, Upto(site, moves, n), key) {
        KeptWithoutBreaks(site, moves, key, n);
      }
    }
  }

  lemma BreakIsUnfaithful(site: Site, moves: seq<Move>, key: Key, i: nat, j: nat)
    requires SiteOk(site) && Breaks(site, moves, key, i, j)
    ensures !Kept(site, Upto(site, moves, j + 1), key)
  {
    TaintedIsMismatched(site, moves, key, i, j);
    UptoNext(site, moves, j);
    MoveKept(site, Upto(site, moves, j), moves[j], key);
  }

  lemma {:induction false} KeptWithoutBreaks(site: Site, moves: seq<Move>, key: Key, n: nat)
    requires SiteOk(site) && n <= |moves| && forall i: nat, j: nat :: !Breaks(site, moves, key, i, j)
    ensures Kept(site, Upto(site, moves, n), key)
    decreases n
  {
    if n > 0 {
      KeptWithoutBreaks(site, moves, key, n - 1);
      var w, m := Upto(site, moves, n - 1), moves[n - 1];
      UptoNext(site, moves, n - 1);
      MoveKept(site, w, m, key);
      if Own(m, key) && Records(w, key, m.turn) && !Matches(site, PassOf(w, key).work) {
        var i := MismatchIsTainted(site, moves, key, n - 1);
        assert Breaks(site, moves, key, i, n - 1);
      }
    }
  }

  /** While the record is kept, Apply is skipped only when every node's fresh ops
      are the ops of the recorded render (the hash taken as injective). */
  lemma SkippedApplyIsTheRecordedRender(site: Site, moves: seq<Move>, key: Key, plan: Plan, n: Node)
    requires SiteOk(site) && !(exists i: nat, j: nat :: Breaks(site, moves, key, i, j))
    requires forall a, b :: site.hash(a) == site.hash(b) ==> a == b
    requires var w := Run(site, EmptyWorld, moves);
      && key in w.objects
      && w.objects[key].status.allocations.Some?
      && HashesEqual(w.objects[key].status.configHashes, PlanHashes(site, plan))
    requires n in plan.nodes
    ensures var st := Run(site, EmptyWorld, moves).objects[key].status;
      && st.appliedSpec.Some?
      && var recorded := site.render(st.appliedSpec.value, st.allocations.value);
         recorded.Some? && n in recorded.value.nodes && recorded.value.nodes[n].ops == plan.nodes[n].ops
  {
    var w := Run(site, EmptyWorld, moves);
    assert moves[..|moves|] == moves;
    KeptWithoutBreaks(site, moves, key, |moves|);
    RunOk(site, moves);
    assert KeyOk(site, w, key);
    var st := w.objects[key].status;
    assert n in PlanHashes(site, plan);
    assert n in st.configHashes && st.configHashes[n] == site.hash(plan.nodes[n].ops);
  }
}
