/** The pass that writes nothing. A ready pass leaves its object settled exactly
    when no lost drift note has left the stored observed generation behind; over
    a settled object passes are silent, over the other one they write. */
module PassSilence {
  import opened Text
  import opened ServiceObjects
  import opened PassMachine
  import opened PassInvariant
  import opened PassRuns
  import opened PassSafety
  import opened PassRecord
  import opened PassFits
  import opened PassDrive
  import opened PassApplied
  import opened PassFailover

  /** A verified object whose record is that of its own spec, whatever generation
      its status reports. */
  ghost predicate Ripe(site: Site, key: Key, obj: Service) {
    var st := obj.status;
    && obj.finalizer && !obj.deleting
    && st.allocations.Some? && st.appliedSpec == Some(obj.spec)
    && Reusable(site, obj, site.corr(key))
    && (var plan := site.render(obj.spec, st.allocations.value);
        && plan.Some? && plan.value.nodes != map[]
        && st.configHashes == PlanHashes(site, plan.value)
        && (!site.steerable(obj.spec, PlanOrder(plan.value)) ==> st.activePath == ""))
    && st.dataPath.Some?
    && VerifiedAt(st.(observedGeneration := obj.generation), obj.generation)
  }

  /** The object as a ready pass leaves it while nothing has changed since. */
  ghost predicate Settled(site: Site, key: Key, obj: Service) {
    Ripe(site, key, obj) && obj.status.observedGeneration == obj.generation
  }

  // ---- the end of a ready pass ----------------------------------------------------------

  /** No edit is waiting for this pass. */
  predicate Unedited(work: Work, obj: Service) {
    work.svc.spec == obj.spec && work.svc.generation == obj.generation
  }

  /** The drift note of this pass is on the server, if there was one, or the server
      reported the generation already. */
  predicate NoteLanded(base: Status, obj: Service) {
    base.observedGeneration == obj.status.observedGeneration || obj.status.observedGeneration == obj.generation
  }

  /** The work writes the record of its own spec, and an unsteered one no path. */
  predicate OwnRecord(site: Site, work: Work, next: Status) {
    Matches(site, work) && ActiveOk(site, work, next.activePath)
  }

  /** The last status write of a ready pass leaves a settled object exactly when no
      edit was waiting, the pass wrote the record of its own spec, and no note was
      lost over an older observed generation. */
  lemma RecordingSettles(site: Site, w: World, key: Key, t: Turn)
    requires SiteOk(site) && RenderOk(site) && KeyOk(site, w, key)
    requires PassOf(w, key).Recording? && Ordered(PassOf(w, key).work) && t.api.Done? && !w.objects[key].deleting
    ensures var w' := Step(site, w, key, t); var p := PassOf(w, key);
      && key in w'.objects && PassOf(w', key).Idle? && !w'.objects[key].deleting
      && (Ripe(site, key, w'.objects[key]) <==> Unedited(p.work, w.objects[key]) && OwnRecord(site, p.work, p.next))
      && (Settled(site, key, w'.objects[key]) <==> Ripe(site, key, w'.objects[key]) && NoteLanded(p.base, w.objects[key]))
  {
    var p := PassOf(w, key);
    var obj := w.objects[key];
    RecordWritten(site, w, key, t);
    hide Step, Ripe, Settled, OwnRecord, Matches, Ordered;
    SettledRecord(site, key, obj, OwnLeases(site, w.leases, key), p.work, p.base, p.next);
  }

  lemma RecordWritten(site: Site, w: World, key: Key, t: Turn)
    requires PassOf(w, key).Recording? && key in w.objects && t.api.Done?
    ensures var w' := Step(site, w, key, t); var p := PassOf(w, key);
      && key in w'.objects && PassOf(w', key).Idle?
      && w'.objects[key] == w.objects[key].(status := MergePatch(w.objects[key].status, p.base, p.next))
  {
  }

  lemma SettledRecord(site: Site, key: Key, obj: Service, own: set<int>, work: Work, base: Status, next: Status)
    requires SiteOk(site) && RenderOk(site) && IdsOk(site, own)
    requires obj.finalizer && !obj.deleting && Ordered(work)
    requires WorkOk(site, key, obj.status, own, work) && RecordingOk(site, key, obj.status, work, base, next)
    ensures var obj' := obj.(status := MergePatch(obj.status, base, next));
      && (Ripe(site, key, obj') <==> Unedited(work, obj) && OwnRecord(site, work, next))
      && (Settled(site, key, obj') <==> Ripe(site, key, obj') && NoteLanded(base, obj))
  {
    var st := MergePatch(obj.status, base, next);
    RecordLands(obj.status, base, next);
    ConditionsLand(obj.status, work, base, next);
    if work.svc.spec == obj.spec && Matches(site, work) {
      SameOrder(site, obj.spec, work);
      RecordReusable(site, key, obj.(status := st), work);
    }
  }

  lemma RecordLands(stored: Status, base: Status, next: Status)
    requires SameRecord(base, stored)
    ensures SameRecord(MergePatch(stored, base, next), next)
  {
  }

  lemma RecordReusable(site: Site, key: Key, obj: Service, work: Work)
    requires SiteOk(site) && RenderOk(site) && site.render(obj.spec, work.alloc).Some?
    requires obj.status.allocations == Some(work.alloc) && obj.status.correlationId == site.corr(key)
    requires work.alloc.vrf == VrfName(work.alloc.id) && work.alloc.id > 0
    ensures Reusable(site, obj, site.corr(key))
  {
    assert VrfName(work.alloc.id)[0] == 'V';
  }

  lemma SameOrder(site: Site, spec: ServiceSpec, work: Work)
    requires IsRender(site, spec, work.alloc, work.hashes) && Ordered(work)
    ensures PlanOrder(site.render(spec, work.alloc).value) == work.order
  {
    var plan := site.render(spec, work.alloc).value;
    assert PlanHashes(site, plan).Keys == plan.nodes.Keys;
  }

  /** The write carries the verified pair, or it is there already: a lost note has
      left the local conditions not ready. */
  lemma ConditionsLand(stored: Status, work: Work, base: Status, next: Status)
    requires base == work.svc.status && LocalOk(work.svc, stored) && VerifiedAt(next, work.svc.generation)
    ensures MergePatch(stored, base, next).conditions == next.conditions
    ensures MergePatch(stored, base, next).observedGeneration == work.svc.generation <==>
      base.observedGeneration == stored.observedGeneration || stored.observedGeneration == work.svc.generation
  {
  }

  // ---- the quiet pass ---------------------------------------------------------------------

  /** Healthy answers: no gate refuses, every node verifies, and the pin is read
      where it was recorded. */
  predicate Healthy(st: Status, t: Turn) {
    t.gate.None? && t.verify.Passed? && t.path == Rides(st.activePath)
  }

  /** Where a quiet pass can be. */
  ghost predicate QuietPass(site: Site, key: Key, obj: Service, pass: Pass) {
    match pass
    case Idle => true
    case Verifying(work, todo, seen, mode) =>
      && WorkPlan(site, obj, work) && work.key == key && Some(work.alloc) == obj.status.allocations && mode.PlainVerify?
      && work.svc == obj && todo != []
    case Observing(work, failed) =>
      && WorkPlan(site, obj, work) && work.key == key && Some(work.alloc) == obj.status.allocations && failed.None?
      && work.svc == obj.(status := obj.status.(nodes := work.svc.status.nodes))
      && site.steerable(obj.spec, work.order)
    case _ => false
  }

  lemma SettledWritesNothing(site: Site, key: Key, obj: Service, work: Work, active: string, now: int)
    requires Settled(site, key, obj) && WorkPlan(site, obj, work) && work.key == key
    requires Some(work.alloc) == obj.status.allocations
    requires work.svc == obj.(status := obj.status.(nodes := work.svc.status.nodes))
    requires active == obj.status.activePath
    ensures GoReady(site, work, active, now) == Idle
  {
  }

  lemma QuietAfterVerify(site: Site, key: Key, obj: Service, work: Work, seen: seq<NodeStatus>, now: int)
    requires Settled(site, key, obj) && WorkPlan(site, obj, work) && work.key == key
    requires Some(work.alloc) == obj.status.allocations && work.svc == obj
    ensures QuietPass(site, key, obj, AfterVerify(site, work, seen, None, PlainVerify, now))
  {
    var work' := work.(svc := work.svc.(status := work.svc.status.(nodes := seen)));
    if !site.steerable(obj.spec, work.order) { SettledWritesNothing(site, key, obj, work', "", now); }
  }

  /** The work a pass over a ripe object starts with. */
  function OwnWork(site: Site, key: Key, obj: Service): Work
    requires obj.status.allocations.Some? && site.render(obj.spec, obj.status.allocations.value).Some?
  {
    var plan := site.render(obj.spec, obj.status.allocations.value).value;
    Work(key, obj, obj.status.allocations.value, plan, PlanOrder(plan), PlanHashes(site, plan), true, false)
  }

  /** Nothing is applied over a ripe object. */
  lemma RipeStart(site: Site, w: World, key: Key, t: Turn)
    requires key in w.objects && Ripe(site, key, w.objects[key]) && PassOf(w, key).Idle? && t.gate.None?
    ensures var work := OwnWork(site, key, w.objects[key]);
      && work.order != [] && WorkPlan(site, w.objects[key], work)
      && Step(site, w, key, t) == At(w, key, GoVerify(site, work, work.order, [], PlainVerify, t.now))
  {
    var obj := w.objects[key];
    var plan := site.render(obj.spec, obj.status.allocations.value).value;
    var n :| n in plan.nodes;
    assert n in PlanHashes(site, plan);
    assert n in PlanOrder(plan);
    assert HashesEqual(obj.status.configHashes, PlanHashes(site, plan));
  }

  lemma QuietStart(site: Site, w: World, key: Key, t: Turn)
    requires key in w.objects && Settled(site, key, w.objects[key]) && PassOf(w, key).Idle?
    requires Healthy(w.objects[key].status, t)
    ensures var w' := Step(site, w, key, t);
      w' == At(w, key, PassOf(w', key)) && QuietPass(site, key, w.objects[key], PassOf(w', key))
  {
    RipeStart(site, w, key, t);
  }

  lemma QuietVerifying(site: Site, w: World, key: Key, t: Turn)
    requires key in w.objects && Settled(site, key, w.objects[key]) && PassOf(w, key).Verifying?
    requires QuietPass(site, key, w.objects[key], PassOf(w, key)) && t.verify.Passed?
    ensures var w' := Step(site, w, key, t); w' == At(w, key, PassOf(w', key)) && QuietPass(site, key, w.objects[key], PassOf(w', key))
  {
    var p := PassOf(w, key);
    if |p.todo| == 1 { QuietAfterVerify(site, key, w.objects[key], p.work, p.seen + [NodeStatus(p.todo[0], true)], t.now); }
  }

  lemma QuietObserving(site: Site, w: World, key: Key, t: Turn)
    requires key in w.objects && Settled(site, key, w.objects[key]) && PassOf(w, key).Observing?
    requires QuietPass(site, key, w.objects[key], PassOf(w, key)) && t.path == Rides(w.objects[key].status.activePath)
    ensures var w' := Step(site, w, key, t); w' == At(w, key, PassOf(w', key)) && QuietPass(site, key, w.objects[key], PassOf(w', key))
  {
    SettledWritesNothing(site, key, w.objects[key], PassOf(w, key).work, w.objects[key].status.activePath, t.now);
  }

  lemma QuietStep(site: Site, w: World, key: Key, t: Turn)
    requires key in w.objects && Settled(site, key, w.objects[key])
    requires QuietPass(site, key, w.objects[key], PassOf(w, key)) && Healthy(w.objects[key].status, t)
    ensures var w' := Step(site, w, key, t);
      && w'.objects == w.objects && w'.leases == w.leases && w'.claims == w.claims && w'.log == w.log
      && QuietPass(site, key, w.objects[key], PassOf(w', key))
  {
    if PassOf(w, key).Idle? { QuietStart(site, w, key, t); }
    else if PassOf(w, key).Verifying? { QuietVerifying(site, w, key, t); }
    else { QuietObserving(site, w, key, t); }
    hide Step, Settled;
  }

  // ---- runs -------------------------------------------------------------------------------

  /** How many calls and writes of a service the log holds. */
  function OwnEvents(log: seq<Event>, key: Key): nat
    decreases |log|
  {
    if log == [] then 0 else OwnEvents(log[..|log| - 1], key) + (if log[|log| - 1].key == key then 1 else 0)
  }

  /** Its own passes are answered in health, and nobody edits or deletes the
      service; others do as they like. */
  predicate Undisturbed(obj: Service, key: Key, m: Move) {
    && (Own(m, key) ==> Healthy(obj.status, m.turn))
    && (m.Edit? || m.Delete? || m.Create? ==> m.key != key)
  }

  /** The service's object, what it holds and its share of the log. */
  ghost predicate Untouched(site: Site, w: World, w': World, key: Key) {
    && Obj(w', key) == Obj(w, key)
    && OwnLeases(site, w'.leases, key) == OwnLeases(site, w.leases, key)
    && OwnClaims(site, w'.claims, key) == OwnClaims(site, w.claims, key)
    && OwnEvents(w'.log, key) == OwnEvents(w.log, key)
  }

  lemma OthersEvents(k: Key, log: seq<Event>, log': seq<Event>, key: Key)
    requires k != key && LogOwn(k, log, log')
    ensures OwnEvents(log', key) == OwnEvents(log, key)
  {
    if log' != log { assert log'[..|log'| - 1] == log; }
  }

  lemma QuietMove(site: Site, w: World, key: Key, m: Move)
    requires SiteOk(site) && Inv(site, w) && key in w.objects && Settled(site, key, w.objects[key])
    requires QuietPass(site, key, w.objects[key], PassOf(w, key)) && Undisturbed(w.objects[key], key, m)
    ensures var w' := Apply(site, w, m);
      Inv(site, w') && Untouched(site, w, w', key) && QuietPass(site, key, w.objects[key], PassOf(w', key))
  {
    ApplyOk(site, w, m);
    match m
    case PassStep(k, t) =>
      if k == key {
        QuietStep(site, w, key, t);
      } else {
        assert KeyOk(site, w, k);
        StepOwn(site, w, k, t);
        FrameSame(site, w, Step(site, w, k, t), k, key);
        OthersEvents(k, w.log, Step(site, w, k, t).log, key);
      }
    case _ =>
      OutsideLeases(site, w, m, key);
      OutsideKeepsObject(site, w, key, m);
  }

  /** Over a settled service, in a healthy world, any number of passes make no
      Apply call, no claim call and no write of any kind, whatever other services
      and lease holders do meanwhile. */
  lemma {:induction false} SettledPassesAreSilent(site: Site, w: World, key: Key, moves: seq<Move>)
    requires SiteOk(site) && Inv(site, w) && key in w.objects && Settled(site, key, w.objects[key])
    requires QuietPass(site, key, w.objects[key], PassOf(w, key))
    requires forall i :: 0 <= i < |moves| ==> Undisturbed(w.objects[key], key, moves[i])
    ensures var w' := Run(site, w, moves);
      Inv(site, w') && Untouched(site, w, w', key) && QuietPass(site, key, w.objects[key], PassOf(w', key))
    decreases |moves|
  {
    if moves != [] {
      var before := moves[..|moves| - 1];
      SettledPassesAreSilent(site, w, key, before);
      var u := Run(site, w, before);
      assert Obj(u, key) == Some(w.objects[key]);
      QuietMove(site, u, key, moves[|moves| - 1]);
    }
  }

  // ---- the pass that does write -------------------------------------------------------------

  lemma OneMoreEvent(log: seq<Event>, e: Event, key: Key)
    requires e.key == key
    ensures OwnEvents(log + [e], key) == OwnEvents(log, key) + 1
  {
    assert (log + [e])[..|log|] == log;
  }

  /** Over a ripe object that reports an older generation, the next healthy pass
      ends in a status write. */
  lemma StaleGenerationIsRewritten(site: Site, w: World, key: Key, t: Turn) returns (moves: seq<Move>)
    requires key in w.objects && Ripe(site, key, w.objects[key]) && w.objects[key].status.observedGeneration != w.objects[key].generation
    requires PassOf(w, key).Idle? && Healthy(w.objects[key].status, t) && t.api.Done?
    ensures AllSteps(moves, key, t) && OwnEvents(Run(site, w, moves).log, key) == OwnEvents(w.log, key) + 1
  {
    var obj := w.objects[key];
    RipeStart(site, w, key, t);
    hide Run, Ripe, GoVerify, OwnEvents, AllSteps, WorkPlan;
    var w1 := At(w, key, GoVerify(site, OwnWork(site, key, obj), OwnWork(site, key, obj).order, [], PlainVerify, t.now));
    var rest := StaleCheck(site, w1, key, t, OwnWork(site, key, obj));
    moves := [PassStep(key, t)] + rest;
    OneMoreStep(rest, key, t);
    RunCons(site, w, PassStep(key, t), rest);
  }

  lemma StaleCheck(site: Site, w: World, key: Key, t: Turn, work: Work) returns (moves: seq<Move>)
    requires key in w.objects && work.svc == w.objects[key]
    requires work.svc.status.dataPath.Some? && work.svc.status.observedGeneration != work.svc.generation
    requires PassOf(w, key) == GoVerify(site, work, work.order, [], PlainVerify, t.now)
    requires t.verify.Passed? && t.path.Rides? && t.api.Done?
    ensures AllSteps(moves, key, t) && OwnEvents(Run(site, w, moves).log, key) == OwnEvents(w.log, key) + 1
  {
    var rest := DriveCheck(site, w, key, t, work);
    var w2 := Run(site, w, rest);
    StaleRecords(site, w2, key, t, w.objects[key], work);
    moves := rest + [PassStep(key, t)];
    RunConcat(site, w, rest, [PassStep(key, t)]);
    RunOne(site, w2, PassStep(key, t));
  }

  lemma StaleRecords(site: Site, w: World, key: Key, t: Turn, obj: Service, work: Work)
    requires key in w.objects && w.objects[key] == obj && obj.status.dataPath.Some? && obj.status.observedGeneration != obj.generation
    requires work.svc == obj && t.api.Done? && t.path.Rides?
    requires var looked := Looked(work, AllSeen(work.order));
      PassOf(w, key) == GoReady(site, looked, SpineSeen(site, looked, t.path.spine), t.now)
    ensures OwnEvents(Step(site, w, key, t).log, key) == OwnEvents(w.log, key) + 1
  {
    var looked := Looked(work, AllSeen(work.order));
    var base := looked.svc.status;
    assert PassOf(w, key).Recording?;
    OneMoreEvent(w.log, StatusWrite(key), key);
  }

  /** The passes after a ready pass, in every run: every undisturbed continuation is
      silent exactly when no edit was waiting, the pass wrote the record of its own
      spec, and its drift note landed or the stored generation was current. */
  lemma SilentAfterReady(site: Site, moves: seq<Move>, key: Key, t: Turn)
    requires SiteOk(site) && RenderOk(site)
    requires var w := Run(site, EmptyWorld, moves);
      PassOf(w, key).Recording? && t.api.Done? && key in w.objects && !w.objects[key].deleting
    ensures var w := Run(site, EmptyWorld, moves); var w', p := Step(site, w, key, t), PassOf(w, key);
      && key in w'.objects
      && (AlwaysSilent(site, w', key) <==>
            Unedited(p.work, w.objects[key]) && OwnRecord(site, p.work, p.next) && NoteLanded(p.base, w.objects[key]))
  {
    var w := Run(site, EmptyWorld, moves);
    assert moves[..|moves|] == moves;
    RunOk(site, moves);
    assert KeyOk(site, w, key);
    TrackedRun(site, moves, key, |moves|);
    TrackedIsOrdered(site, w, key);
    RecordingSettles(site, w, key, t);
    ApplyOk(site, w, PassStep(key, t));
    SilentExactly(site, Step(site, w, key, t), key);
  }

  /** A pass that no refresh has diverted writes the record of its own spec. */
  lemma UndivertedRecordsOwn(site: Site, moves: seq<Move>, key: Key)
    requires SiteOk(site) && NeverDiverted(site, moves, key) && PassOf(Run(site, EmptyWorld, moves), key).Recording?
    ensures var p := PassOf(Run(site, EmptyWorld, moves), key); OwnRecord(site, p.work, p.next)
  {
    assert moves[..|moves|] == moves;
    SoundRun(site, moves, key, |moves|);
    SoundRecords(site, PassOf(Run(site, EmptyWorld, moves), key));
    hide Run, Sound, Matches, ActiveOk, NeverDiverted;
  }

  lemma SoundRecords(site: Site, pass: Pass)
    requires Sound(site, pass) && pass.Recording?
    ensures OwnRecord(site, pass.work, pass.next)
  {
  }

  lemma TrackedIsOrdered(site: Site, w: World, key: Key)
    requires key in w.objects && Tracked(site, w, key) && HasWork(PassOf(w, key))
    ensures Ordered(PassOf(w, key).work)
  {
    hide TookBut;
    var work := PassOf(w, key).work;
    assert PlanHashes(site, work.plan).Keys == work.plan.nodes.Keys;
  }

  /** No undisturbed continuation makes a call or a write of this service. */
  ghost predicate AlwaysSilent(site: Site, w: World, key: Key)
    requires key in w.objects
  {
    forall later: seq<Move> :: AllUndisturbed(w.objects[key], key, later) ==> Untouched(site, w, Run(site, w, later), key)
  }

  predicate AllUndisturbed(obj: Service, key: Key, moves: seq<Move>) {
    forall i :: 0 <= i < |moves| ==> Undisturbed(obj, key, moves[i])
  }

  /** Of any live service at rest, in any reachable state: every undisturbed
      continuation is silent exactly when its object is settled. */
  lemma SilentExactly(site: Site, w: World, key: Key)
    requires SiteOk(site) && RenderOk(site) && Inv(site, w) && key in w.objects && !w.objects[key].deleting && PassOf(w, key).Idle?
    ensures Settled(site, key, w.objects[key]) <==> AlwaysSilent(site, w, key)
  {
    var obj := w.objects[key];
    if Settled(site, key, obj) {
      forall later: seq<Move> | AllUndisturbed(obj, key, later) ensures Untouched(site, w, Run(site, w, later), key) {
        SettledPassesAreSilent(site, w, key, later);
      }
    } else {
      var t := Turn(None, Done, false, false, Accepted, Passed, Rides(obj.status.activePath), ProbePasses, 0, IdClaim, "", 0);
      assert KeyOk(site, w, key);
      var later := UnsettledCalls(site, w, key, t);
      NotSilent(site, w, key, t, later);
    }
  }

  lemma NotSilent(site: Site, w: World, key: Key, t: Turn, later: seq<Move>)
    requires key in w.objects && Healthy(w.objects[key].status, t) && AllSteps(later, key, t)
    requires OwnEvents(Run(site, w, later).log, key) != OwnEvents(w.log, key)
    ensures !AlwaysSilent(site, w, key)
  {
    hide Run;
    assert AllUndisturbed(w.objects[key], key, later);
  }

  /** The next pass goes straight to verify. */
  predicate SkipsNext(site: Site, key: Key, obj: Service) {
    && obj.finalizer && Reusable(site, obj, site.corr(key))
    && var plan := site.render(obj.spec, obj.status.allocations.value);
       plan.Some? && HashesEqual(obj.status.configHashes, PlanHashes(site, plan.value))
  }

  /** Over an object that is not settled, the next healthy pass makes a call. */
  lemma UnsettledCalls(site: Site, w: World, key: Key, t: Turn) returns (moves: seq<Move>)
    requires RenderOk(site) && key in w.objects && !w.objects[key].deleting && PassOf(w, key).Idle?
    requires RecordOk(site, key, w.objects[key].status) && !Settled(site, key, w.objects[key])
    requires Healthy(w.objects[key].status, t) && t.api.Done?
    ensures AllSteps(moves, key, t) && OwnEvents(Run(site, w, moves).log, key) == OwnEvents(w.log, key) + 1
  {
    var s := PassStep(key, t);
    if SkipsNext(site, key, w.objects[key]) {
      moves := LooseEndIsWritten(site, w, key, t);
    } else {
      FirstCall(site, w, key, t);
      moves := [s] + [s];
      RunCons(site, w, s, [s]);
      PassDrive.RunOne(site, Apply(site, w, s), s);
    }
  }

  /** The pass stops, claims or applies. */
  lemma FirstCall(site: Site, w: World, key: Key, t: Turn)
    requires RenderOk(site) && key in w.objects && !w.objects[key].deleting && PassOf(w, key).Idle?
    requires RecordOk(site, key, w.objects[key].status) && !SkipsNext(site, key, w.objects[key]) && t.gate.None? && t.api.Done?
    ensures OwnEvents(Step(site, Step(site, w, key, t), key, t).log, key) == OwnEvents(w.log, key) + 1
  {
    var p := FirstStage(site, w, key, t);
    hide Step;
    StageCalls(site, Step(site, w, key, t), key, t);
  }

  lemma StageCalls(site: Site, w: World, key: Key, t: Turn)
    requires key in w.objects && t.api.Done? && FirstOf(PassOf(w, key))
    ensures OwnEvents(Step(site, w, key, t).log, key) == OwnEvents(w.log, key) + 1
  {
    if AtCall(PassOf(w, key)) {
      CallLogged(site, w, key, t);
      OneMoreEvent(w.log, CallOf(w, key, t).value, key);
    } else {
      WriteStage(site, w, key, t);
    }
  }

  lemma WriteStage(site: Site, w: World, key: Key, t: Turn)
    requires key in w.objects && t.api.Done? && (PassOf(w, key).AddingFinalizer? || PassOf(w, key).Refusing? || PassOf(w, key).ClaimingId?)
    ensures OwnEvents(Step(site, w, key, t).log, key) == OwnEvents(w.log, key) + 1
  {
    var p := PassOf(w, key);
    if p.AddingFinalizer? { OneMoreEvent(w.log, ObjectWrite(key), key); }
    else if p.Refusing? { OneMoreEvent(w.log, StatusWrite(key), key); }
    else { OneMoreEvent(w.log, ClaimCall(key), key); }
  }

  /** Stages that open with a call or a write. */
  predicate FirstOf(p: Pass) {
    p.AddingFinalizer? || p.Refusing? || p.ClaimingId? || ((p.Removing? || p.Applying?) && p.todo != [])
  }

  lemma FirstStage(site: Site, w: World, key: Key, t: Turn) returns (p: Pass)
    requires RenderOk(site) && key in w.objects && !w.objects[key].deleting && PassOf(w, key).Idle?
    requires RecordOk(site, key, w.objects[key].status) && !SkipsNext(site, key, w.objects[key]) && t.gate.None?
    ensures Step(site, w, key, t) == At(w, key, p) && FirstOf(p)
  {
    var obj := w.objects[key];
    p := PassOf(Step(site, w, key, t), key);
    if obj.finalizer && Reusable(site, obj, site.corr(key)) {
      PlanStage(site, key, obj, obj.status.allocations.value, t.now);
      assert Step(site, w, key, t) == At(w, key, GoPlan(site, key, obj, obj.status.allocations.value, t.now));
    }
  }

  lemma PlanStage(site: Site, key: Key, obj: Service, alloc: Allocations, now: int)
    requires RenderOk(site) && obj.status.appliedSpec.Some?
    requires var plan := site.render(obj.spec, alloc); plan.Some? ==> !HashesEqual(obj.status.configHashes, PlanHashes(site, plan.value))
    ensures var p := GoPlan(site, key, obj, alloc, now); p.Refusing? || ((p.Removing? || p.Applying?) && p.todo != [])
  {
    var plan := site.render(obj.spec, alloc);
    if plan.Some? {
      var n :| n in plan.value.nodes;
      assert n in PlanOrder(plan.value);
    }
  }

  /** A pass that skips its apply over an unsettled object ends in a status write. */
  lemma LooseEndIsWritten(site: Site, w: World, key: Key, t: Turn) returns (moves: seq<Move>)
    requires key in w.objects && !w.objects[key].deleting && PassOf(w, key).Idle?
    requires RecordOk(site, key, w.objects[key].status) && SkipsNext(site, key, w.objects[key]) && !Settled(site, key, w.objects[key])
    requires RenderOk(site) && Healthy(w.objects[key].status, t) && t.api.Done?
    ensures AllSteps(moves, key, t) && OwnEvents(Run(site, w, moves).log, key) == OwnEvents(w.log, key) + 1
  {
    var obj := w.objects[key];
    var work := OwnWork(site, key, obj);
    var s := PassStep(key, t);
    var w1 := SkipRead(site, w, key, t);
    hide Run, SkipsNext, Settled, OwnWork, RecordOk, GoVerify, GoReady, Apply, OwnEvents, AllSteps;
    var rest := DriveCheck(site, w1, key, t, work);
    var w2 := Run(site, w1, rest);
    LooseEndRecords(site, w2, key, t, obj, work);
    RunParts(site, w, s, rest, [s]);
    PassDrive.RunOne(site, w2, s);
    moves := [s] + (rest + [s]);
    OneMoreStep(rest, key, t);
    OneMoreStep(rest + [s], key, t);
  }

  lemma SkipRead(site: Site, w: World, key: Key, t: Turn) returns (w1: World)
    requires key in w.objects && !w.objects[key].deleting && PassOf(w, key).Idle? && SkipsNext(site, key, w.objects[key]) && t.gate.None?
    ensures var work := OwnWork(site, key, w.objects[key]);
      w1 == Apply(site, w, PassStep(key, t)) && w1.objects == w.objects && w1.log == w.log && PassOf(w1, key) == GoVerify(site, work, work.order, [], PlainVerify, t.now)
  {
    hide GoVerify;
    var obj := w.objects[key];
    w1 := Step(site, w, key, t);
    assert w1 == At(w, key, GoPlan(site, key, obj, obj.status.allocations.value, t.now));
  }

  lemma LooseEndRecords(site: Site, w: World, key: Key, t: Turn, obj: Service, work: Work)
    requires key in w.objects && w.objects[key] == obj && !obj.deleting && t.api.Done? && t.path == Rides(obj.status.activePath)
    requires RenderOk(site) && RecordOk(site, key, obj.status) && SkipsNext(site, key, obj) && !Settled(site, key, obj) && work == OwnWork(site, key, obj)
    requires var looked := Looked(work, AllSeen(work.order));
      PassOf(w, key) == GoReady(site, looked, SpineSeen(site, looked, t.path.spine), t.now)
    ensures OwnEvents(Step(site, w, key, t).log, key) == OwnEvents(w.log, key) + 1
  {
    LooseEnd(site, key, obj, t.now);
    OneMoreEvent(w.log, StatusWrite(key), key);
  }

  /** If the ready stage has nothing to write, the object is settled. */
  lemma LooseEnd(site: Site, key: Key, obj: Service, now: int)
    requires RenderOk(site) && !obj.deleting && RecordOk(site, key, obj.status) && SkipsNext(site, key, obj) && !Settled(site, key, obj)
    ensures var looked := Looked(OwnWork(site, key, obj), AllSeen(OwnWork(site, key, obj).order));
      GoReady(site, looked, SpineSeen(site, looked, obj.status.activePath), now).Recording?
  {
    var work := OwnWork(site, key, obj);
    var looked := Looked(work, AllSeen(work.order));
    var base, active := looked.svc.status, SpineSeen(site, looked, obj.status.activePath);
    var next := SetReadyOutcome(base, obj.generation, work.hashes, obj.spec, site.corr(key), active, work.alloc, now);
    if base == next { NothingLoose(site, key, obj, active, now); }
    hide Settled, RecordOk, Reusable, HashesEqual, SetReadyOutcome, SpineSeen, AllSeen;
  }

  /** What a ready stage with nothing to write says of the object. */
  lemma NothingLoose(site: Site, key: Key, obj: Service, active: string, now: int)
    requires RenderOk(site) && !obj.deleting && RecordOk(site, key, obj.status) && SkipsNext(site, key, obj)
    requires active == SpineSeen(site, OwnWork(site, key, obj), obj.status.activePath)
    requires var work, st := OwnWork(site, key, obj), obj.status;
      st == SetReadyOutcome(st, obj.generation, work.hashes, obj.spec, site.corr(key), active, work.alloc, now)
    ensures Settled(site, key, obj)
  {
  }
}
