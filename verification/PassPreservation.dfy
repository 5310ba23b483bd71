/** Every move keeps the invariant: the local work between calls first, then
    each call, then the frame of a step for all other services. */
module PassPreservation {
  import opened Text
  import opened ServiceObjects
  import opened PassMachine
  import opened PassInvariant

  // ---- local work --------------------------------------------------------------

  lemma GoRecordOk(site: Site, key: Key, obj: Service, own: set<int>, claims: set<ClaimName>,
                   work: Work, dataPath: Option<int>, active: string, now: int)
    requires WorkOk(site, key, obj.status, own, work) && dataPath.Some?
    requires AllVerified(work.svc.status.nodes, work.order) || Waived(work, active)
    ensures PassOk(site, key, obj, own, claims, GoRecord(site, work, dataPath, active, now))
  {
  }

  lemma GoReadyOk(site: Site, key: Key, obj: Service, own: set<int>, claims: set<ClaimName>,
                  work: Work, active: string, now: int)
    requires WorkOk(site, key, obj.status, own, work)
    requires AllVerified(work.svc.status.nodes, work.order) || Waived(work, active)
    ensures PassOk(site, key, obj, own, claims, GoReady(site, work, active, now))
  {
    if work.svc.status.dataPath.Some? {
      GoRecordOk(site, key, obj, own, claims, work, work.svc.status.dataPath, active, now);
    }
  }

  lemma AfterPathOk(site: Site, key: Key, obj: Service, own: set<int>, claims: set<ClaimName>,
                    work: Work, failed: Option<Kind>, active: string, now: int)
    requires WorkOk(site, key, obj.status, own, work)
    requires failed.None? ==> AllVerified(work.svc.status.nodes, work.order) || Waived(work, active)
    ensures PassOk(site, key, obj, own, claims, AfterPath(site, work, failed, active, now))
  {
    if failed.None? { GoReadyOk(site, key, obj, own, claims, work, active, now); }
  }

  lemma AfterVerifyOk(site: Site, key: Key, obj: Service, own: set<int>, claims: set<ClaimName>,
                      work: Work, seen: seq<NodeStatus>, failed: Option<Kind>, mode: VerifyMode, now: int)
    requires WorkOk(site, key, obj.status, own, work)
    requires failed.None? ==> AllVerified(seen, work.order)
    requires mode.UpdateVerify? ==> obj.status.allocations.Some?
    ensures PassOk(site, key, obj, own, claims, AfterVerify(site, work, seen, failed, mode, now))
  {
    var work' := work.(svc := work.svc.(status := work.svc.status.(nodes := seen)));
    assert WorkOk(site, key, obj.status, own, work');
    match mode
    case PlainVerify =>
      if !site.steerable(work'.svc.spec, work'.order) { AfterPathOk(site, key, obj, own, claims, work', failed, "", now); }
    case UpdateVerify =>
    case DriftVerify(active) =>
      if failed.None? { GoReadyOk(site, key, obj, own, claims, work', active, now); }
  }

  lemma GoVerifyOk(site: Site, key: Key, obj: Service, own: set<int>, claims: set<ClaimName>,
                   work: Work, todo: seq<Node>, seen: seq<NodeStatus>, mode: VerifyMode, now: int)
    requires WorkOk(site, key, obj.status, own, work)
    requires VerifiedSoFar(seen, todo, work.order)
    requires mode.UpdateVerify? ==> obj.status.allocations.Some?
    ensures PassOk(site, key, obj, own, claims, GoVerify(site, work, todo, seen, mode, now))
  {
    if todo == [] { AfterVerifyOk(site, key, obj, own, claims, work, seen, None, mode, now); }
  }

  lemma GoApplyOk(site: Site, key: Key, obj: Service, own: set<int>, claims: set<ClaimName>,
                  work: Work, plan: Plan, todo: seq<Node>, mode: ApplyMode, now: int)
    requires WorkOk(site, key, obj.status, own, work) && ApplyModeOk(obj.status, mode)
    ensures PassOk(site, key, obj, own, claims, GoApply(site, work, plan, todo, mode, now))
  {
    if todo == [] {
      match mode
      case FirstApply => GoVerifyOk(site, key, obj, own, claims, work, work.order, [], PlainVerify, now);
      case UpdateApply(_) => GoVerifyOk(site, key, obj, own, claims, work, work.order, [], UpdateVerify, now);
      case RestoreApply =>
      case DriftApply(active) => GoVerifyOk(site, key, obj, own, claims, work, work.order, [], DriftVerify(active), now);
    }
  }

  lemma GoRemoveOk(site: Site, key: Key, obj: Service, own: set<int>, claims: set<ClaimName>,
                   work: Work, prev: Plan, todo: seq<Node>, now: int)
    requires WorkOk(site, key, obj.status, own, work) && obj.status.allocations.Some?
    ensures PassOk(site, key, obj, own, claims, GoRemove(site, work, prev, todo, now))
  {
    if todo == [] { GoApplyOk(site, key, obj, own, claims, work, work.plan, work.order, UpdateApply(prev), now); }
  }

  lemma GoRollOk(site: Site, key: Key, obj: Service, own: set<int>, claims: set<ClaimName>,
                 work: Work, plan: Plan, todo: seq<Node>, mode: RollMode, now: int)
    requires WorkOk(site, key, obj.status, own, work)
    requires mode.FirstRoll? ==> obj.status.allocations.None?
    ensures PassOk(site, key, obj, own, claims, GoRoll(site, work, plan, todo, mode, now))
  {
    if todo == [] && mode.UpdateRoll? { GoApplyOk(site, key, obj, own, claims, work, plan, PlanOrder(plan), RestoreApply, now); }
  }

  lemma GoPlanOk(site: Site, key: Key, obj: Service, own: set<int>, claims: set<ClaimName>,
                 svc: Service, alloc: Allocations, now: int)
    requires svc.status == obj.status && RecordOk(site, key, obj.status)
    requires Holds(obj.status, own) && alloc.id in own && alloc.vrf == VrfName(alloc.id)
    ensures PassOk(site, key, obj, own, claims, GoPlan(site, key, svc, alloc, now))
  {
    match site.render(svc.spec, alloc)
    case None =>
    case Some(plan) =>
      var hashes := PlanHashes(site, plan);
      var sameRender := HashesEqual(svc.status.configHashes, hashes);
      var work := Work(key, svc, alloc, plan, PlanOrder(plan), hashes, sameRender, false);
      assert IsRender(site, svc.spec, alloc, hashes);
      assert WorkOk(site, key, obj.status, own, work);
      if svc.status.appliedSpec.Some? && !sameRender {
        match site.render(svc.status.appliedSpec.value, alloc)
        case None =>
        case Some(prev) =>
          if RemovalNodes(prev, plan) == [] { GoApplyOk(site, key, obj, own, claims, work, plan, work.order, UpdateApply(prev), now); }
      } else if !sameRender {
        GoApplyOk(site, key, obj, own, claims, work, plan, work.order, FirstApply, now);
      } else {
        GoVerifyOk(site, key, obj, own, claims, work, work.order, [], PlainVerify, now);
      }
  }

  lemma GoPrefixOk(site: Site, key: Key, obj: Service, own: set<int>, claims: set<ClaimName>, svc: Service, id: int,
                   waiting: seq<Attachment>, prefixes: map<Node, string>, now: int)
    requires svc.status == obj.status && RecordOk(site, key, obj.status)
    requires Holds(obj.status, own) && id in own
    ensures PassOk(site, key, obj, own, claims, GoPrefix(site, key, svc, id, waiting, prefixes, now))
  {
    if waiting == [] { GoPlanOk(site, key, obj, own, claims, svc, Allocations(id, VrfName(id), prefixes), now); }
  }

  lemma {:induction false} GoCreateOk(site: Site, key: Key, obj: Service, claims: set<ClaimName>, svc: Service, value: int, used: set<int>)
    requires svc.status == obj.status && Holds(obj.status, {}) && site.firstId <= value
    ensures PassOk(site, key, obj, {}, claims, GoCreate(site, svc, value, used))
    decreases site.lastId - value + 1
  {
    if value <= site.lastId && value in used { GoCreateOk(site, key, obj, claims, svc, value + 1, used); }
  }

  // ---- status writes -------------------------------------------------------------

  /** A refusal or Finalizing write changes conditions only, and never to Ready. */
  lemma ConditionWriteOk(site: Site, key: Key, stored: Status, base: Status, next: Status)
    requires RecordOk(site, key, stored)
    requires next == base.(conditions := next.conditions, observedGeneration := next.observedGeneration)
    requires !IsReady(next)
    ensures RecordOk(site, key, MergePatch(stored, base, next))
    ensures SameRecord(MergePatch(stored, base, next), stored)
  {
  }

  /** The ready write records identifiers the pass holds. */
  lemma ReadyWriteOk(site: Site, key: Key, stored: Status, own: set<int>, work: Work, base: Status, next: Status)
    requires SiteOk(site) && IdsOk(site, own)
    requires RecordOk(site, key, stored) && WorkOk(site, key, stored, own, work)
    requires SameRecord(base, stored) && next.nodes == base.nodes
    requires next.allocations == Some(work.alloc) && next.appliedSpec.Some? && next.configHashes == work.hashes
    requires next.correlationId == site.corr(key) && next.dataPath.Some?
    ensures RecordOk(site, key, MergePatch(stored, base, next))
    ensures MergePatch(stored, base, next).allocations == Some(work.alloc)
    ensures Holds(MergePatch(stored, base, next), own)
  {
  }

  /** Only the pass moved on. */
  lemma PassMoves(site: Site, w: World, w': World, key: Key, obj: Service, pass: Pass)
    requires KeyOk(site, w, key) && Obj(w, key) == Some(obj) && obj.finalizer
    requires w'.objects == w.objects && w'.leases == w.leases && w'.claims == w.claims && PassOf(w', key) == pass
    requires PassOk(site, key, obj, OwnLeases(site, w.leases, key), OwnClaims(site, w.claims, key), pass)
    ensures KeyOk(site, w', key)
  {
  }

  /** The pass moved on and the stored status was written. */
  lemma StatusMoves(site: Site, w: World, w': World, key: Key, obj: Service, st: Status, pass: Pass)
    requires KeyOk(site, w, key) && Obj(w, key) == Some(obj) && obj.finalizer
    requires Obj(w', key) == Some(obj.(status := st)) && w'.leases == w.leases && w'.claims == w.claims && PassOf(w', key) == pass
    requires RecordOk(site, key, st) && (!obj.deleting ==> Holds(st, OwnLeases(site, w.leases, key)))
    requires PassOk(site, key, obj.(status := st), OwnLeases(site, w.leases, key), OwnClaims(site, w.claims, key), pass)
    ensures KeyOk(site, w', key)
  {
  }

  // ---- one step of the service's own pass --------------------------------------------

  lemma StartOk(site: Site, w: World, key: Key, t: Turn)
    requires SiteOk(site) && KeyOk(site, w, key) && PassOf(w, key).Idle?
    ensures KeyOk(site, Start(site, w, key, t), key)
  {
    if key in w.objects {
      if w.objects[key].deleting { StartDeletingOk(site, w, key, t); } else { StartLiveOk(site, w, key, t); }
    }
  }

  lemma StartDeletingOk(site: Site, w: World, key: Key, t: Turn)
    requires KeyOk(site, w, key) && PassOf(w, key).Idle? && key in w.objects && w.objects[key].deleting
    ensures KeyOk(site, Start(site, w, key, t), key)
  {
    var w' := Start(site, w, key, t);
    hide KeyOk, FinalPlan, WithRollback, PlanOrder;
    assert w.objects[key].finalizer ==> PassOf(w', key).FinalRollback? || PassOf(w', key) == ListingClaims(w.objects[key], ThenStrip);
    if w.objects[key].finalizer { PassMoves(site, w, w', key, w.objects[key], PassOf(w', key)); }
  }

  lemma StartLiveOk(site: Site, w: World, key: Key, t: Turn)
    requires SiteOk(site) && KeyOk(site, w, key) && PassOf(w, key).Idle? && key in w.objects && !w.objects[key].deleting
    ensures KeyOk(site, Start(site, w, key, t), key)
  {
    var svc := w.objects[key];
    var own, claims := OwnLeases(site, w.leases, key), OwnClaims(site, w.claims, key);
    if svc.finalizer && t.gate.None? && Reusable(site, svc, site.corr(key)) {
      GoPlanOk(site, key, svc, own, claims, svc, svc.status.allocations.value, t.now);
      PassMoves(site, w, Start(site, w, key, t), key, svc, GoPlan(site, key, svc, svc.status.allocations.value, t.now));
    } else {
      hide GoPlan, Reusable, RecordOk, FinalPlan, IdsOk;
    }
  }

  lemma RefusingOk(site: Site, w: World, key: Key, svc: Service, kind: Kind, t: Turn)
    requires SiteOk(site) && KeyOk(site, w, key) && PassOf(w, key) == Refusing(svc, kind)
    ensures KeyOk(site, StepRefusing(w, key, svc, kind, t), key)
  {
    ConditionWriteOk(site, key, w.objects[key].status, svc.status, SetRefusal(svc.status, svc.generation, kind, t.now));
  }

  lemma NotingFinalizingOk(site: Site, w: World, key: Key, t: Turn)
    requires SiteOk(site) && KeyOk(site, w, key) && PassOf(w, key).NotingFinalizing?
    ensures KeyOk(site, Step(site, w, key, t), key)
  {
    var svc := PassOf(w, key).svc;
    ConditionWriteOk(site, key, w.objects[key].status, svc.status, SetFinalizing(svc.status, svc.generation, t.now));
  }

  lemma ListingLeasesOk(site: Site, w: World, key: Key, svc: Service, t: Turn)
    requires SiteOk(site) && KeyOk(site, w, key) && PassOf(w, key) == ListingLeases(svc)
    ensures KeyOk(site, StepListingLeases(site, w, key, svc, t), key)
  {
    var obj := w.objects[key];
    var own, claims := OwnLeases(site, w.leases, key), OwnClaims(site, w.claims, key);
    if t.api.Done? {
      if own == {} {
        GoCreateOk(site, key, obj, claims, svc, site.firstId, w.leases.Keys);
      } else if t.pick in own {
        GoPrefixOk(site, key, obj, own, claims, svc, t.pick, OrderedAttachments(svc.spec.attachments), map[], t.now);
      }
    }
  }

  lemma OwnAfterCreate(site: Site, leases: map<int, CorrId>, key: Key, value: int)
    requires value !in leases
    ensures OwnLeases(site, leases[value := site.corr(key)], key) == OwnLeases(site, leases, key) + {value}
  {
  }

  lemma CreatingLeaseOk(site: Site, w: World, key: Key, svc: Service, value: int, used: set<int>, t: Turn)
    requires SiteOk(site) && KeyOk(site, w, key) && PassOf(w, key) == CreatingLease(svc, value, used)
    ensures KeyOk(site, StepCreatingLease(site, w, key, svc, value, used, t), key)
  {
    hide OwnLeases, OwnClaims, RecordOk, GoPrefix;
    if value !in w.leases {
      OwnAfterCreate(site, w.leases, key, value);
      if t.api.Done? { CreatedOk(site, w, key, svc, value); }
    }
  }

  lemma CreatedOk(site: Site, w: World, key: Key, svc: Service, value: int)
    requires SiteOk(site) && KeyOk(site, w, key) && PassOf(w, key).CreatingLease? && PassOf(w, key).svc == svc && PassOf(w, key).value == value
    ensures forall now ::
      PassOk(site, key, w.objects[key], {value}, OwnClaims(site, w.claims, key),
             GoPrefix(site, key, svc, value, OrderedAttachments(svc.spec.attachments), map[], now))
  {
    forall now ensures
      PassOk(site, key, w.objects[key], {value}, OwnClaims(site, w.claims, key),
             GoPrefix(site, key, svc, value, OrderedAttachments(svc.spec.attachments), map[], now))
    {
      GoPrefixOk(site, key, w.objects[key], {value}, OwnClaims(site, w.claims, key), svc, value,
                 OrderedAttachments(svc.spec.attachments), map[], now);
    }
  }

  lemma ReadingLeaseOk(site: Site, w: World, key: Key, svc: Service, value: int, used: set<int>, t: Turn)
    requires SiteOk(site) && KeyOk(site, w, key) && PassOf(w, key) == ReadingLease(svc, value, used)
    ensures KeyOk(site, StepReadingLease(site, w, key, svc, value, used, t), key)
  {
    assert value !in OwnLeases(site, w.leases, key);
    GoCreateOk(site, key, w.objects[key], OwnClaims(site, w.claims, key), svc, value + 1, used);
  }

  lemma ClaimingIdOk(site: Site, w: World, key: Key, svc: Service, t: Turn)
    requires SiteOk(site) && KeyOk(site, w, key) && PassOf(w, key) == ClaimingId(svc)
    ensures KeyOk(site, StepClaimingId(site, w, key, svc, t), key)
  {
  }

  lemma ClaimingPrefixOk(site: Site, w: World, key: Key, svc: Service, id: int, waiting: seq<Attachment>,
                         prefixes: map<Node, string>, t: Turn)
    requires SiteOk(site) && KeyOk(site, w, key) && PassOf(w, key) == ClaimingPrefix(svc, id, waiting, prefixes)
    requires waiting != []
    ensures KeyOk(site, StepClaimingPrefix(site, w, key, svc, id, waiting, prefixes, t), key)
  {
    var w' := StepClaimingPrefix(site, w, key, svc, id, waiting, prefixes, t);
    if t.api.Done? {
      GoPrefixOk(site, key, w.objects[key], OwnLeases(site, w.leases, key), OwnClaims(site, w'.claims, key),
                 svc, id, waiting[1..], prefixes[waiting[0].node := t.address], t.now);
    }
  }

  lemma OwnAfterDelete(site: Site, leases: map<int, CorrId>, key: Key, value: int)
    ensures OwnLeases(site, leases - {value}, key) == OwnLeases(site, leases, key) - {value}
  {
  }

  lemma ClaimsAfterDelete(site: Site, claims: set<Claim>, key: Key, name: ClaimName)
    ensures OwnClaims(site, claims - {Claim(site.corr(key), name)}, key) == OwnClaims(site, claims, key) - {name}
  {
    var c := Claim(site.corr(key), name);
    var own, own' := OwnClaims(site, claims, key), OwnClaims(site, claims - {c}, key);
    forall n ensures n in own' <==> n in own - {name} {
      if n in own - {name} {
        assert Claim(site.corr(key), n) in claims - {c};
      }
    }
  }

  lemma DeletingClaimsOk(site: Site, w: World, key: Key, svc: Service, todo: set<ClaimName>, after: After, t: Turn)
    requires SiteOk(site) && KeyOk(site, w, key) && PassOf(w, key) == DeletingClaims(svc, todo, after)
    ensures KeyOk(site, StepDeletingClaims(site, w, key, svc, todo, after, t), key)
  {
    ClaimsAfterDelete(site, w.claims, key, t.claim);
    hide OwnLeases, OwnClaims, RecordOk;
  }

  lemma DeletingLeasesOk(site: Site, w: World, key: Key, svc: Service, todo: set<int>, after: After, t: Turn)
    requires SiteOk(site) && KeyOk(site, w, key) && PassOf(w, key) == DeletingLeases(svc, todo, after)
    ensures KeyOk(site, StepDeletingLeases(w, key, svc, todo, after, t), key)
  {
    OwnAfterDelete(site, w.leases, key, t.pick);
    hide OwnLeases, OwnClaims, RecordOk;
  }

  lemma RemovingOk(site: Site, w: World, key: Key, work: Work, prev: Plan, todo: seq<Node>, t: Turn)
    requires SiteOk(site) && KeyOk(site, w, key) && PassOf(w, key) == Removing(work, prev, todo) && todo != []
    ensures KeyOk(site, StepRemoving(site, w, key, work, prev, todo, t), key)
  {
    var obj, w' := w.objects[key], StepRemoving(site, w, key, work, prev, todo, t);
    var own, claims := OwnLeases(site, w.leases, key), OwnClaims(site, w.claims, key);
    if t.exec.Accepted? || t.exec.Rejected? {
      GoRemoveOk(site, key, obj, own, claims, work, prev, todo[1..], t.now);
      PassMoves(site, w, w', key, obj, GoRemove(site, work, prev, todo[1..], t.now));
    } else {
      PassMoves(site, w, w', key, obj, Refusing(work.svc, ApplyKind));
    }
  }

  lemma GoFailedApplyOk(site: Site, key: Key, obj: Service, own: set<int>, claims: set<ClaimName>,
                        work: Work, mode: ApplyMode, now: int)
    requires WorkOk(site, key, obj.status, own, work) && ApplyModeOk(obj.status, mode)
    ensures PassOk(site, key, obj, own, claims, GoFailedApply(site, work, mode, now))
  {
    match mode
    case FirstApply =>
      GoRollOk(site, key, obj, own, claims, work, work.plan, WithRollback(work.plan, PlanOrder(work.plan)), FirstRoll, now);
    case UpdateApply(prev) =>
      GoRollOk(site, key, obj, own, claims, work, prev, WithRollback(prev, PlanOrder(prev)), UpdateRoll, now);
    case RestoreApply =>
    case DriftApply(_) =>
      GoRollOk(site, key, obj, own, claims, work, work.plan, WithRollback(work.plan, PlanOrder(work.plan)), DriftRoll, now);
  }

  lemma ApplyingOk(site: Site, w: World, key: Key, work: Work, plan: Plan, todo: seq<Node>, mode: ApplyMode, t: Turn)
    requires SiteOk(site) && KeyOk(site, w, key) && PassOf(w, key) == Applying(work, plan, todo, mode) && todo != []
    ensures KeyOk(site, StepApplying(site, w, key, work, plan, todo, mode, t), key)
  {
    var obj, w' := w.objects[key], StepApplying(site, w, key, work, plan, todo, mode, t);
    var own, claims := OwnLeases(site, w.leases, key), OwnClaims(site, w.claims, key);
    if t.exec.Accepted? {
      GoApplyOk(site, key, obj, own, claims, work, plan, todo[1..], mode, t.now);
      PassMoves(site, w, w', key, obj, GoApply(site, work, plan, todo[1..], mode, t.now));
    } else {
      GoFailedApplyOk(site, key, obj, own, claims, work, mode, t.now);
      PassMoves(site, w, w', key, obj, GoFailedApply(site, work, mode, t.now));
    }
  }

  lemma RollingBackOk(site: Site, w: World, key: Key, work: Work, plan: Plan, todo: seq<Node>, mode: RollMode, t: Turn)
    requires SiteOk(site) && KeyOk(site, w, key) && PassOf(w, key) == RollingBack(work, plan, todo, mode) && todo != []
    ensures KeyOk(site, StepRollingBack(site, w, key, work, plan, todo, mode, t), key)
  {
    var obj, w' := w.objects[key], StepRollingBack(site, w, key, work, plan, todo, mode, t);
    var own, claims := OwnLeases(site, w.leases, key), OwnClaims(site, w.claims, key);
    GoRollOk(site, key, obj, own, claims, work, plan, todo[1..], mode, t.now);
    PassMoves(site, w, w', key, obj, GoRoll(site, work, plan, todo[1..], mode, t.now));
  }

  lemma VerifyingOk(site: Site, w: World, key: Key, work: Work, todo: seq<Node>, seen: seq<NodeStatus>, mode: VerifyMode, t: Turn)
    requires SiteOk(site) && KeyOk(site, w, key) && PassOf(w, key) == Verifying(work, todo, seen, mode) && todo != []
    ensures KeyOk(site, StepVerifying(site, w, key, work, todo, seen, mode, t), key)
  {
    var obj, w' := w.objects[key], StepVerifying(site, w, key, work, todo, seen, mode, t);
    var own, claims := OwnLeases(site, w.leases, key), OwnClaims(site, w.claims, key);
    var seen' := seen + [NodeStatus(todo[0], t.verify.Passed?)];
    if t.verify.Passed? {
      GoVerifyOk(site, key, obj, own, claims, work, todo[1..], seen', mode, t.now);
      PassMoves(site, w, w', key, obj, GoVerify(site, work, todo[1..], seen', mode, t.now));
    } else {
      var kind := if t.verify.LocatorGone? then LocatorKind else CheckKind;
      AfterVerifyOk(site, key, obj, own, claims, work, seen', Some(kind), mode, t.now);
      PassMoves(site, w, w', key, obj, AfterVerify(site, work, seen', Some(kind), mode, t.now));
    }
  }

  lemma RecordingUpdateOk(site: Site, w: World, key: Key, work: Work, now: int, t: Turn)
    requires SiteOk(site) && KeyOk(site, w, key) && PassOf(w, key) == RecordingUpdate(work, now)
    ensures KeyOk(site, StepRecordingUpdate(site, w, key, work, now, t), key)
  {
    var own, claims := OwnLeases(site, w.leases, key), OwnClaims(site, w.claims, key);
    var base := work.svc.status;
    var next := SetReadyOutcome(base, work.svc.generation, work.hashes, work.svc.spec, site.corr(key),
                                base.activePath, work.alloc, now);
    ReadyWriteOk(site, key, w.objects[key].status, own, work, base, next);
    var w1 := WriteStatus(w, key, base, next, t.api);
    if Written(w, key, t.api) {
      GoVerifyOk(site, key, w1.objects[key], own, claims, work.(svc := w1.objects[key]), work.order, [], PlainVerify, t.now);
    }
  }

  lemma ObservingOk(site: Site, w: World, key: Key, work: Work, failed: Option<Kind>, t: Turn)
    requires SiteOk(site) && KeyOk(site, w, key) && PassOf(w, key) == Observing(work, failed)
    ensures KeyOk(site, StepObserving(site, w, key, work, failed, t), key)
  {
    var obj, w' := w.objects[key], StepObserving(site, w, key, work, failed, t);
    var own, claims := OwnLeases(site, w.leases, key), OwnClaims(site, w.claims, key);
    match t.path
    case Unread => PassMoves(site, w, w', key, obj, Idle);
    case NoLeg => PassMoves(site, w, w', key, obj, Refusing(work.svc, PathKind));
    case Rides(spine) =>
      var waived := failed == Some(CheckKind) && spine != "" && spine != work.svc.spec.preferredSpine;
      var work', failed' := if waived then work.(skipRepair := true) else work, if waived then None else failed;
      AfterPathOk(site, key, obj, own, claims, work', failed', spine, t.now);
      PassMoves(site, w, w', key, obj, AfterPath(site, work', failed', spine, t.now));
  }

  lemma NotingDriftOk(site: Site, w: World, key: Key, work: Work, active: string, t: Turn)
    requires SiteOk(site) && KeyOk(site, w, key) && PassOf(w, key) == NotingDrift(work, active)
    ensures KeyOk(site, StepNotingDrift(site, w, key, work, active, t), key)
  {
    var obj, w' := w.objects[key], StepNotingDrift(site, w, key, work, active, t);
    var own, claims := OwnLeases(site, w.leases, key), OwnClaims(site, w.claims, key);
    var base := work.svc.status;
    var next := SetRefusal(base, work.svc.generation, CheckKind, t.now);
    ConditionWriteOk(site, key, obj.status, base, next);
    var merged := obj.(status := MergePatch(obj.status, base, next));
    var work' := work.(svc := if t.api.Done? then merged else work.svc.(status := next));
    var pass := GoApply(site, work', work.plan, work.order, DriftApply(active), t.now);
    hide GoApply, KeyOk;
    if t.api.Done? || t.api.landed {
      GoApplyOk(site, key, merged, own, claims, work', work.plan, work.order, DriftApply(active), t.now);
      StatusMoves(site, w, w', key, obj, merged.status, pass);
    } else {
      GoApplyOk(site, key, obj, own, claims, work', work.plan, work.order, DriftApply(active), t.now);
      PassMoves(site, w, w', key, obj, pass);
    }
  }

  lemma ProbingOk(site: Site, w: World, key: Key, work: Work, active: string, t: Turn)
    requires SiteOk(site) && KeyOk(site, w, key) && PassOf(w, key) == Probing(work, active)
    ensures KeyOk(site, StepProbing(site, w, key, work, active, t), key)
  {
    var obj, w' := w.objects[key], StepProbing(site, w, key, work, active, t);
    var own, claims := OwnLeases(site, w.leases, key), OwnClaims(site, w.claims, key);
    match t.probe
    case ProbeErrs => PassMoves(site, w, w', key, obj, Idle);
    case ProbeFails => PassMoves(site, w, w', key, obj, Refusing(work.svc, DataPathKind));
    case ProbePasses =>
      GoRecordOk(site, key, obj, own, claims, work, Some(t.now), active, t.now);
      PassMoves(site, w, w', key, obj, GoRecord(site, work, Some(t.now), active, t.now));
  }

  lemma RecordingStepOk(site: Site, w: World, key: Key, work: Work, base: Status, next: Status, t: Turn)
    requires SiteOk(site) && KeyOk(site, w, key) && PassOf(w, key) == Recording(work, base, next)
    ensures KeyOk(site, Step(site, w, key, t), key)
  {
    ReadyWriteOk(site, key, w.objects[key].status, OwnLeases(site, w.leases, key), work, base, next);
  }

  lemma AddingFinalizerOk(site: Site, w: World, key: Key, t: Turn)
    requires SiteOk(site) && KeyOk(site, w, key) && PassOf(w, key).AddingFinalizer?
    ensures KeyOk(site, Step(site, w, key, t), key)
  {
  }

  lemma AwaitingIdOk(site: Site, w: World, key: Key, t: Turn)
    requires SiteOk(site) && KeyOk(site, w, key) && PassOf(w, key).AwaitingId?
    ensures KeyOk(site, Step(site, w, key, t), key)
  {
  }

  lemma ListingClaimsOk(site: Site, w: World, key: Key, t: Turn)
    requires SiteOk(site) && KeyOk(site, w, key) && PassOf(w, key).ListingClaims?
    ensures KeyOk(site, Step(site, w, key, t), key)
  {
    var svc, after, obj, w' := PassOf(w, key).svc, PassOf(w, key).after, w.objects[key], Step(site, w, key, t);
    var own, claims := OwnLeases(site, w.leases, key), OwnClaims(site, w.claims, key);
    if t.api.Failed? {
      PassMoves(site, w, w', key, obj, GoReleased(svc, after, false));
    } else {
      PassMoves(site, w, w', key, obj, DeletingClaims(svc, claims, after));
    }
  }

  lemma ListingOwnLeasesOk(site: Site, w: World, key: Key, t: Turn)
    requires SiteOk(site) && KeyOk(site, w, key) && PassOf(w, key).ListingOwnLeases?
    ensures KeyOk(site, Step(site, w, key, t), key)
  {
    var svc, after, obj, w' := PassOf(w, key).svc, PassOf(w, key).after, w.objects[key], Step(site, w, key, t);
    var own, claims := OwnLeases(site, w.leases, key), OwnClaims(site, w.claims, key);
    if t.api.Failed? {
      PassMoves(site, w, w', key, obj, GoReleased(svc, after, false));
    } else {
      PassMoves(site, w, w', key, obj, DeletingLeases(svc, own, after));
    }
  }

  lemma FinalRollbackOk(site: Site, w: World, key: Key, svc: Service, plan: Plan, todo: seq<Node>, dirty: set<Node>, t: Turn)
    requires SiteOk(site) && KeyOk(site, w, key) && PassOf(w, key) == FinalRollback(svc, plan, todo, dirty) && todo != []
    ensures KeyOk(site, StepFinalRollback(w, key, svc, plan, todo, dirty, t), key)
  {
    var dirty' := if t.exec.Unreachable? then dirty + {todo[0]} else dirty;
    PassMoves(site, w, StepFinalRollback(w, key, svc, plan, todo, dirty, t), key, w.objects[key], GoFinalRollback(svc, plan, todo[1..], dirty'));
  }

  lemma StrippingOk(site: Site, w: World, key: Key, t: Turn)
    requires SiteOk(site) && KeyOk(site, w, key) && PassOf(w, key).Stripping?
    ensures KeyOk(site, StepStripping(w, key, t), key)
  {
  }

  lemma FinalStepOk(site: Site, w: World, key: Key, t: Turn)
    requires SiteOk(site) && KeyOk(site, w, key) && (PassOf(w, key).FinalRollback? || PassOf(w, key).Stripping?)
    ensures KeyOk(site, Step(site, w, key, t), key)
  {
    hide KeyOk, Start, StepFinalRollback, StepStripping;
    match PassOf(w, key)
    case FinalRollback(svc, plan, todo, dirty) =>
      if todo != [] { FinalRollbackOk(site, w, key, svc, plan, todo, dirty, t); }
    case Stripping(_) => StrippingOk(site, w, key, t);
  }

  lemma ClaimStepOk(site: Site, w: World, key: Key, t: Turn)
    requires SiteOk(site) && KeyOk(site, w, key)
    requires var p := PassOf(w, key); p.ClaimingId? || p.ListingLeases? || p.CreatingLease? || p.ReadingLease? || p.ClaimingPrefix?
    ensures KeyOk(site, Step(site, w, key, t), key)
  {
    hide KeyOk, Start, StepListingLeases, StepClaimingId, StepCreatingLease, StepReadingLease, StepClaimingPrefix;
    match PassOf(w, key)
    case ListingLeases(svc) => ListingLeasesOk(site, w, key, svc, t);
    case ClaimingId(svc) => ClaimingIdOk(site, w, key, svc, t);
    case CreatingLease(svc, value, used) => CreatingLeaseOk(site, w, key, svc, value, used, t);
    case ReadingLease(svc, value, used) => ReadingLeaseOk(site, w, key, svc, value, used, t);
    case ClaimingPrefix(svc, id, waiting, prefixes) =>
      if waiting != [] { ClaimingPrefixOk(site, w, key, svc, id, waiting, prefixes, t); }
  }

  lemma DeviceStepOk(site: Site, w: World, key: Key, t: Turn)
    requires SiteOk(site) && KeyOk(site, w, key)
    requires var p := PassOf(w, key); p.Removing? || p.Applying? || p.RollingBack? || p.Verifying?
    requires PassOf(w, key).todo != []
    ensures KeyOk(site, Step(site, w, key, t), key)
  {
    hide KeyOk, Start, StepRemoving, StepApplying, StepRollingBack, StepVerifying;
    match PassOf(w, key)
    case Removing(work, prev, todo) => RemovingOk(site, w, key, work, prev, todo, t);
    case Applying(work, plan, todo, mode) => ApplyingOk(site, w, key, work, plan, todo, mode, t);
    case RollingBack(work, plan, todo, mode) => RollingBackOk(site, w, key, work, plan, todo, mode, t);
    case Verifying(work, todo, seen, mode) => VerifyingOk(site, w, key, work, todo, seen, mode, t);
  }

  lemma StatusStepOk(site: Site, w: World, key: Key, t: Turn)
    requires SiteOk(site) && KeyOk(site, w, key)
    requires var p := PassOf(w, key);
      p.NotingDrift? || p.Recording? || p.Refusing? || p.NotingFinalizing?
    ensures KeyOk(site, Step(site, w, key, t), key)
  {
    hide KeyOk, Start, StepRefusing, StepNotingDrift, WriteStatus, At;
    match PassOf(w, key)
    case Refusing(svc, kind) => RefusingOk(site, w, key, svc, kind, t);
    case NotingFinalizing(svc) => NotingFinalizingOk(site, w, key, t);
    case NotingDrift(work, active) => NotingDriftOk(site, w, key, work, active, t);
    case Recording(work, base, next) => RecordingStepOk(site, w, key, work, base, next, t);
  }

  lemma LookStepOk(site: Site, w: World, key: Key, t: Turn)
    requires SiteOk(site) && KeyOk(site, w, key)
    requires var p := PassOf(w, key); p.RecordingUpdate? || p.Observing? || p.Probing?
    ensures KeyOk(site, Step(site, w, key, t), key)
  {
    hide KeyOk, Start, StepRecordingUpdate, StepObserving, StepProbing;
    match PassOf(w, key)
    case RecordingUpdate(work, now) => RecordingUpdateOk(site, w, key, work, now, t);
    case Observing(work, failed) => ObservingOk(site, w, key, work, failed, t);
    case Probing(work, active) => ProbingOk(site, w, key, work, active, t);
  }

  /** One step keeps the service's own invariant. */
  lemma StepOk(site: Site, w: World, key: Key, t: Turn)
    requires SiteOk(site) && KeyOk(site, w, key)
    ensures KeyOk(site, Step(site, w, key, t), key)
  {
    hide KeyOk, Start, SiteOk;
    var p := PassOf(w, key);
    if p.Idle? { StartOk(site, w, key, t); }
    else if p.AddingFinalizer? { AddingFinalizerOk(site, w, key, t); }
    else if p.AwaitingId? { AwaitingIdOk(site, w, key, t); }
    else if p.ListingClaims? { ListingClaimsOk(site, w, key, t); }
    else if p.ListingOwnLeases? { ListingOwnLeasesOk(site, w, key, t); }
    else if p.FinalRollback? || p.Stripping? { FinalStepOk(site, w, key, t); }
    else if p.DeletingClaims? { DeletingClaimsOk(site, w, key, p.svc, p.claims, p.after, t); }
    else if p.DeletingLeases? { DeletingLeasesOk(site, w, key, p.svc, p.ids, p.after, t); }
    else if p.Removing? || p.Applying? || p.RollingBack? || p.Verifying? {
      if p.todo != [] { DeviceStepOk(site, w, key, t); }
    } else if p.ClaimingId? || p.ListingLeases? || p.CreatingLease? || p.ReadingLease? || p.ClaimingPrefix? {
      ClaimStepOk(site, w, key, t);
    } else if p.RecordingUpdate? || p.Observing? || p.Probing? { LookStepOk(site, w, key, t); }
    else { StatusStepOk(site, w, key, t); }
  }
}
