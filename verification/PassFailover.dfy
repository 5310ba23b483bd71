/** The steered failover that no pass undoes. */
module PassFailover {
  import opened Text
  import opened ServiceObjects
  import opened PassMachine
  import opened PassInvariant
  import opened PassRuns

  /** The work of an unedited object's own render. */
  ghost predicate WorkPlan(site: Site, obj: Service, work: Work) {
    && work.svc.spec == obj.spec
    && work.svc.generation == obj.generation
    && site.render(obj.spec, work.alloc) == Some(work.plan)
    && work.hashes == PlanHashes(site, work.plan)
    && work.order == PlanOrder(work.plan)
  }

  /** An unchanged plan of a steered service. */
  ghost predicate SteeredUnchanged(site: Site, key: Key, obj: Service) {
    && obj.finalizer && !obj.deleting
    && Reusable(site, obj, site.corr(key))
    && var plan := site.render(obj.spec, obj.status.allocations.value);
       && plan.Some?
       && HashesEqual(obj.status.configHashes, PlanHashes(site, plan.value))
       && site.steerable(obj.spec, PlanOrder(plan.value))
  }

  ghost predicate FailoverWork(site: Site, obj: Service, work: Work) {
    && WorkPlan(site, obj, work)
    && work.sameRender
    && Some(work.alloc) == obj.status.allocations
  }

  ghost predicate FailoverPass(site: Site, obj: Service, pass: Pass) {
    match pass
    case Idle => true
    case Refusing(_, _) => true
    case Verifying(work, todo, _, mode) => FailoverWork(site, obj, work) && mode.PlainVerify? && todo != []
    case Observing(work, _) => FailoverWork(site, obj, work)
    case Probing(work, _) => FailoverWork(site, obj, work)
    case Recording(work, _, _) => FailoverWork(site, obj, work)
    case _ => false
  }

  ghost predicate FailedOver(site: Site, w: World, key: Key) {
    && key in w.objects
    && SteeredUnchanged(site, key, w.objects[key])
    && FailoverPass(site, w.objects[key], PassOf(w, key))
  }

  /** How many Apply calls the log holds for a service. */
  function ApplyCalls(log: seq<Event>, key: Key): nat
    decreases |log|
  {
    if log == [] then 0
    else ApplyCalls(log[..|log| - 1], key) + (if log[|log| - 1].ApplyCall? && log[|log| - 1].key == key then 1 else 0)
  }

  /** Every path read finds the pin on a known spine other than the preferred
      one (or fails); nobody edits or deletes the service. */
  predicate RidesAlternate(w: World, key: Key, m: Move) {
    && (m.PassStep? && m.key == key && key in w.objects ==>
          m.turn.path.Unread? || (m.turn.path.Rides? && m.turn.path.spine != "" && m.turn.path.spine != w.objects[key].spec.preferredSpine))
    && (m.Edit? || m.Delete? || m.Create? ==> m.key != key)
  }

  lemma FailoverVerified(site: Site, key: Key, obj: Service, work: Work, seen: seq<NodeStatus>, failed: Option<Kind>, now: int)
    requires SteeredUnchanged(site, key, obj) && FailoverWork(site, obj, work)
    ensures FailoverPass(site, obj, AfterVerify(site, work, seen, failed, PlainVerify, now))
  {
  }

  lemma FailoverRecord(site: Site, obj: Service, work: Work, dataPath: Option<int>, active: string, now: int)
    requires FailoverWork(site, obj, work)
    ensures FailoverPass(site, obj, GoRecord(site, work, dataPath, active, now))
  {
  }

  lemma FailoverReady(site: Site, obj: Service, work: Work, active: string, now: int)
    requires FailoverWork(site, obj, work)
    ensures FailoverPass(site, obj, GoReady(site, work, active, now))
  {
    FailoverRecord(site, obj, work, work.svc.status.dataPath, active, now);
  }

  /** The path stage over a pin on the alternate: failed checks are waived,
      any other failure is refused. */
  lemma FailoverPath(site: Site, obj: Service, work: Work, failed: Option<Kind>, active: string, now: int)
    requires FailoverWork(site, obj, work) && failed != Some(CheckKind)
    ensures FailoverPass(site, obj, AfterPath(site, work, failed, active, now))
  {
    if failed.None? { FailoverReady(site, obj, work, active, now); }
  }

  lemma FailoverObserving(site: Site, w: World, key: Key, t: Turn)
    requires FailedOver(site, w, key) && PassOf(w, key).Observing? && RidesAlternate(w, key, PassStep(key, t))
    ensures var w' := Step(site, w, key, t);
      w'.objects == w.objects && w'.log == w.log && FailoverPass(site, w.objects[key], PassOf(w', key))
  {
    var work, failed, obj := PassOf(w, key).work, PassOf(w, key).failed, w.objects[key];
    assert FailoverWork(site, obj, work) && work.svc.spec == obj.spec;
    if t.path.Rides? {
      if failed == Some(CheckKind) { FailoverPath(site, obj, work.(skipRepair := true), None, t.path.spine, t.now); }
      else { FailoverPath(site, obj, work, failed, t.path.spine, t.now); }
    }
  }

  lemma FailoverPlan(site: Site, key: Key, obj: Service, now: int)
    requires RenderOk(site) && SteeredUnchanged(site, key, obj)
    ensures FailoverPass(site, obj, GoPlan(site, key, obj, obj.status.allocations.value, now))
  {
    var plan := site.render(obj.spec, obj.status.allocations.value).value;
    assert |PlanOrder(plan)| == 2;
  }

  lemma FailoverStart(site: Site, w: World, key: Key, t: Turn)
    requires RenderOk(site) && FailedOver(site, w, key) && PassOf(w, key).Idle?
    ensures var w' := Step(site, w, key, t);
      w'.objects == w.objects && w'.log == w.log && FailoverPass(site, w.objects[key], PassOf(w', key))
  {
    var obj := w.objects[key];
    FailoverPlan(site, key, obj, t.now);
    assert Step(site, w, key, t) == Start(site, w, key, t);
  }

  lemma FailoverRecording(site: Site, w: World, key: Key, t: Turn)
    requires SiteOk(site) && RenderOk(site) && KeyOk(site, w, key) && FailedOver(site, w, key)
    requires PassOf(w, key).Recording?
    ensures var w' := Step(site, w, key, t);
      && FailedOver(site, w', key) && w'.objects[key].spec == w.objects[key].spec
      && (w'.log == w.log || w'.log == w.log + [StatusWrite(key)])
  {
    var obj := w.objects[key];
    var p := PassOf(w, key);
    var st := MergePatch(obj.status, p.base, p.next);
    FailoverStatus(site, key, obj, OwnLeases(site, w.leases, key), p.work, p.base, p.next);
    hide SteeredUnchanged, KeyOk, MergePatch, FailoverWork;
    assert t.api.Done? || t.api.landed ==> Step(site, w, key, t).objects[key] == obj.(status := st);
  }

  /** The record of the same render, over itself. */
  lemma FailoverStatus(site: Site, key: Key, obj: Service, own: set<int>, work: Work, base: Status, next: Status)
    requires SiteOk(site) && RenderOk(site) && SteeredUnchanged(site, key, obj) && FailoverWork(site, obj, work)
    requires WorkOk(site, key, obj.status, own, work) && RecordingOk(site, key, obj.status, work, base, next)
    ensures SteeredUnchanged(site, key, obj.(status := MergePatch(obj.status, base, next)))
  {
    var plan := site.render(obj.spec, obj.status.allocations.value).value;
    assert |PlanOrder(plan)| == 2;
    var n := PlanOrder(plan)[0];
    assert n in PlanOrder(plan);
    assert n in PlanHashes(site, plan);
    assert HashesEqual(next.configHashes, PlanHashes(site, plan));
    var st := MergePatch(obj.status, base, next);
    assert st.allocations == obj.status.allocations && st.configHashes == next.configHashes && st.correlationId == obj.status.correlationId;
  }

  lemma FailoverRefusing(site: Site, w: World, key: Key, t: Turn)
    requires FailedOver(site, w, key) && PassOf(w, key).Refusing?
    ensures var w' := Step(site, w, key, t);
      && FailedOver(site, w', key) && w'.objects[key].spec == w.objects[key].spec
      && (w'.log == w.log || w'.log == w.log + [StatusWrite(key)])
  {
  }

  lemma FailoverProbing(site: Site, w: World, key: Key, t: Turn)
    requires FailedOver(site, w, key) && PassOf(w, key).Probing?
    ensures var w' := Step(site, w, key, t);
      w'.objects == w.objects && w'.log == w.log && FailoverPass(site, w.objects[key], PassOf(w', key))
  {
    var p := PassOf(w, key);
    assert FailoverWork(site, w.objects[key], p.work);
    match t.probe
    case ProbePasses =>
      FailoverRecord(site, w.objects[key], p.work, Some(t.now), p.active, t.now);
      assert Step(site, w, key, t) == At(w, key, GoRecord(site, p.work, Some(t.now), p.active, t.now));
    case _ =>
  }

  lemma FailoverVerifying(site: Site, w: World, key: Key, t: Turn)
    requires FailedOver(site, w, key) && PassOf(w, key).Verifying?
    ensures var w' := Step(site, w, key, t);
      w'.objects == w.objects && w'.log == w.log && FailoverPass(site, w.objects[key], PassOf(w', key))
  {
    var obj := w.objects[key];
    var p := PassOf(w, key);
    var seen' := p.seen + [NodeStatus(p.todo[0], t.verify.Passed?)];
    match t.verify
    case Passed => if |p.todo| == 1 { FailoverVerified(site, key, obj, p.work, seen', None, t.now); }
    case LocatorGone => FailoverVerified(site, key, obj, p.work, seen', Some(LocatorKind), t.now);
    case _ => FailoverVerified(site, key, obj, p.work, seen', Some(CheckKind), t.now);
  }

  /** What one step of the service's own pass keeps while failed over. */
  ghost predicate StillFailedOver(site: Site, w: World, w': World, key: Key)
    requires FailedOver(site, w, key)
  {
    && FailedOver(site, w', key) && w'.objects[key].spec == w.objects[key].spec
    && ApplyCalls(w'.log, key) == ApplyCalls(w.log, key)
  }

  lemma NoApplyLogged(log: seq<Event>, e: Event, key: Key)
    requires !e.ApplyCall?
    ensures ApplyCalls(log + [e], key) == ApplyCalls(log, key)
  {
    assert (log + [e])[..|log|] == log;
  }

  lemma FailoverStep(site: Site, w: World, key: Key, t: Turn)
    requires SiteOk(site) && RenderOk(site) && KeyOk(site, w, key)
    requires FailedOver(site, w, key) && RidesAlternate(w, key, PassStep(key, t))
    ensures StillFailedOver(site, w, Step(site, w, key, t), key)
  {
    NoApplyLogged(w.log, StatusWrite(key), key);
    var p := PassOf(w, key);
    if p.Idle? { FailoverStart(site, w, key, t); }
    else if p.Observing? { FailoverObserving(site, w, key, t); }
    else if p.Verifying? { FailoverVerifying(site, w, key, t); }
    else if p.Recording? { FailoverRecording(site, w, key, t); }
    else if p.Refusing? { FailoverRefusing(site, w, key, t); }
    else { FailoverProbing(site, w, key, t); }
  }

  /** Another service's step logs no Apply call of this one. */
  lemma OthersLog(k: Key, log: seq<Event>, log': seq<Event>, key: Key)
    requires k != key && LogOwn(k, log, log')
    ensures ApplyCalls(log', key) == ApplyCalls(log, key)
  {
    if log' != log { assert log'[..|log'| - 1] == log; }
  }

  /** While the pin rides a known spine other than the preferred one and the
      plan is unchanged, no pass over the service ever makes an Apply call,
      whatever its checks answer and whatever else runs. */
  lemma {:induction false} FailoverIsNeverUndone(site: Site, w: World, key: Key, moves: seq<Move>)
    requires SiteOk(site) && RenderOk(site) && Inv(site, w) && FailedOver(site, w, key)
    requires forall i :: 0 <= i < |moves| ==> RidesAlternate(Run(site, w, moves[..i]), key, moves[i])
    ensures var w' := Run(site, w, moves);
      && Inv(site, w') && FailedOver(site, w', key)
      && ApplyCalls(w'.log, key) == ApplyCalls(w.log, key)
    decreases |moves|
  {
    if moves != [] {
      var before := moves[..|moves| - 1];
      forall i | 0 <= i < |before| ensures RidesAlternate(Run(site, w, before[..i]), key, before[i]) {
        assert before[..i] == moves[..i];
      }
      FailoverIsNeverUndone(site, w, key, before);
      hide FailedOver, RidesAlternate, ApplyCalls;
      var u, m := Run(site, w, before), moves[|moves| - 1];
      ApplyOk(site, u, m);
      assert KeyOk(site, u, key);
      FailoverMove(site, u, key, m);
    }
  }

  lemma FailoverMove(site: Site, u: World, key: Key, m: Move)
    requires SiteOk(site) && RenderOk(site) && Inv(site, u) && FailedOver(site, u, key) && RidesAlternate(u, key, m)
    ensures FailedOver(site, Apply(site, u, m), key)
    ensures ApplyCalls(Apply(site, u, m).log, key) == ApplyCalls(u.log, key)
  {
    assert KeyOk(site, u, key);
    match m
    case PassStep(k, t) =>
      assert KeyOk(site, u, k);
      if k == key { FailoverStep(site, u, key, t); }
      else {
        StepOwn(site, u, k, t);
        var u' := Step(site, u, k, t);
        OthersLog(k, u.log, u'.log, key);
        assert Obj(u', key) == Obj(u, key) && PassOf(u', key) == PassOf(u, key);
      }
    case _ => FailoverOutside(site, u, key, m);
  }

  lemma OutsideKeepsObject(site: Site, u: World, key: Key, m: Move)
    requires !m.PassStep? && (m.Edit? || m.Delete? || m.Create? ==> m.key != key)
    ensures var u' := Apply(site, u, m);
      Obj(u', key) == Obj(u, key) && PassOf(u', key) == PassOf(u, key) && u'.log == u.log
  {
  }

  lemma FailoverOutside(site: Site, u: World, key: Key, m: Move)
    requires FailedOver(site, u, key) && RidesAlternate(u, key, m) && !m.PassStep?
    ensures FailedOver(site, Apply(site, u, m), key) && Apply(site, u, m).log == u.log
  {
    OutsideKeepsObject(site, u, key, m);
    assert Obj(u, key).Some?;
  }
}
