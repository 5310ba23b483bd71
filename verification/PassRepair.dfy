/** An edit that is taken back after a failed check, and the repair of the pass
    that skips its apply: the service ends settled, and its nodes hold the
    recorded render beside what the edit had put there. */
module PassRepair {
  import opened Text
  import opened ServiceObjects
  import opened PassMachine
  import opened PassInvariant
  import opened PassRuns
  import opened PassRecord
  import opened PassFits
  import opened PassApplied
  import opened PassDrive
  import opened PassSilence
  import opened PassRace
  import opened PassReturn
  import opened Devices
  import opened Fabric
  import opened PassDevices

  /** The work of a repair whose note has landed. */
  ghost predicate Mending(site: Site, w: World, key: Key, work: Work) {
    && Inv(site, w) && key in w.objects && !w.objects[key].deleting && work.svc == w.objects[key] && work.key == key
    && Matches(site, work) && Ordered(work) && work.svc.status.dataPath.Some? && !IsReady(work.svc.status)
  }

  /** The calls of a repair that goes through. */
  function RepairCalls(key: Key, plan: Plan): seq<Event> {
    [StatusWrite(key)] + ApplyLog(key, plan, PlanOrder(plan)) + [StatusWrite(key)]
  }

  /** Settled again, with the record as it was. */
  ghost predicate SettledAsRecorded(site: Site, w: World, key: Key, spec: ServiceSpec, alloc: Allocations) {
    && Inv(site, w) && key in w.objects && PassOf(w, key).Idle? && Settled(site, key, w.objects[key])
    && w.objects[key].spec == spec && w.objects[key].status.allocations == Some(alloc)
  }

  /** Over the record of a settled service, a pass whose first check fails repairs its
      nodes and leaves the service settled. */
  lemma RepairSettles(site: Site, w: World, key: Key, obj: Service, t: Turn) returns (moves: seq<Move>, w': World)
    requires SiteOk(site) && RenderOk(site) && Inv(site, w) && Good(t) && key in w.objects && PassOf(w, key).Idle?
    requires Settled(site, key, obj) && SameRecorded(obj, w.objects[key])
    ensures forall m :: m in moves ==> m == PassStep(key, t) || m == PassStep(key, Failing(t, obj.spec.preferredSpine))
    ensures w' == Run(site, w, moves) && SettledAsRecorded(site, w', key, obj.spec, obj.status.allocations.value)
    ensures w'.log == w.log + RepairCalls(key, site.render(obj.spec, obj.status.allocations.value).value)
  {
    var work := OwnWork(site, key, w.objects[key]);
    SettledSkips(site, obj, w, key, t);
    OwnWorkFits(site, w, key, obj);
    var first, w1, active := ToNote(site, w, key, t, work);
    var rest;
    rest, w' := RepairOn(site, w1, key, t, FailedLook(work), active);
    hide Run, SettledAsRecorded, RepairCalls;
    moves := first + rest;
    RunConcat(site, w, first, rest);
    MendMoves(moves, first, rest, key, t, obj.spec.preferredSpine);
  }

  /** The pass skips, looks, and is about to note the failed check. */
  lemma ToNote(site: Site, w: World, key: Key, t: Turn, work: Work) returns (moves: seq<Move>, w': World, active: string)
    requires SiteOk(site) && Inv(site, w) && key in w.objects && !w.objects[key].deleting && work.svc == w.objects[key] && work.key == key
    requires Matches(site, work) && Ordered(work) && work.order == PlanOrder(work.plan) && work.order != []
    requires work.svc.status.dataPath.Some? && work.sameRender
    requires Step(site, w, key, t) == At(w, key, Verifying(work, work.order, [], PlainVerify))
    ensures moves != [] && moves[0] == PassStep(key, t) && AllSteps(moves[1..], key, Failing(t, work.svc.spec.preferredSpine))
    ensures w' == Run(site, w, moves) && w'.log == w.log && w'.objects == w.objects
    ensures NoteAhead(site, w', key, FailedLook(work), active)
  {
    hide Run, Step, Inv, Matches, Ordered, PlanOrder, SpineSeen, KeyOk;
    var w1 := Apply(site, w, PassStep(key, t));
    assert w1 == Step(site, w, key, t);
    var first;
    first, active := DriveToNote(site, w1, key, t, work);
    moves := [PassStep(key, t)] + first;
    RunCons(site, w, PassStep(key, t), first);
    InvRun(site, w, moves);
    w' := Run(site, w, moves);
    LookFits(site, work);
    assert moves[1..] == first;
  }

  lemma LookFits(site: Site, work: Work)
    requires work.order != [] && Matches(site, work) && Ordered(work) && work.order == PlanOrder(work.plan)
    ensures Matches(site, FailedLook(work)) && Ordered(FailedLook(work))
    ensures ActiveOk(site, FailedLook(work), SpineSeen(site, work, work.svc.spec.preferredSpine))
  {
  }

  /** A pass about to note a failed check of its own object's plan. */
  ghost predicate NoteAhead(site: Site, w: World, key: Key, work: Work, active: string) {
    && Inv(site, w) && key in w.objects && !w.objects[key].deleting && Fresh(work, w.objects[key])
    && work.key == key && Matches(site, work) && Ordered(work) && work.order == PlanOrder(work.plan)
    && work.svc.status.dataPath.Some? && PassOf(w, key) == NotingDrift(work, active) && ActiveOk(site, work, active)
  }

  lemma MendMoves(moves: seq<Move>, first: seq<Move>, rest: seq<Move>, key: Key, t: Turn, spine: string)
    requires moves == first + rest && first != [] && first[0] == PassStep(key, t)
    requires AllSteps(first[1..], key, Failing(t, spine)) && AllSteps(rest, key, t)
    ensures forall m :: m in moves ==> m == PassStep(key, t) || m == PassStep(key, Failing(t, spine))
  {
    forall m | m in moves ensures m == PassStep(key, t) || m == PassStep(key, Failing(t, spine)) {
      var i :| 0 <= i < |moves| && moves[i] == m;
      if 0 < i < |first| { assert m == first[1..][i - 1]; }
    }
  }

  lemma OwnWorkFits(site: Site, w: World, key: Key, obj: Service)
    requires key in w.objects && Settled(site, key, obj) && SameRecorded(obj, w.objects[key])
    ensures var work := OwnWork(site, key, w.objects[key]);
      Matches(site, work) && Ordered(work) && work.svc.status.dataPath.Some? && work.plan == site.render(obj.spec, obj.status.allocations.value).value
  {
    var work := OwnWork(site, key, w.objects[key]);
    assert PlanHashes(site, work.plan).Keys == work.plan.nodes.Keys;
  }

  /** The local object is the stored one, but for the nodes last looked at. */
  predicate Fresh(work: Work, obj: Service) {
    work.svc == obj.(status := obj.status.(nodes := work.svc.status.nodes))
  }

  /** From the drift note to the record. */
  lemma RepairOn(site: Site, w: World, key: Key, t: Turn, work: Work, active: string) returns (moves: seq<Move>, w': World)
    requires SiteOk(site) && RenderOk(site) && Good(t) && NoteAhead(site, w, key, work, active)
    ensures AllSteps(moves, key, t)
    ensures w' == Run(site, w, moves) && SettledAsRecorded(site, w', key, w.objects[key].spec, work.alloc)
    ensures w'.log == w.log + RepairCalls(key, work.plan)
  {
    var s := PassStep(key, t);
    var w1, work1 := NoteMends(site, w, key, t, work, active);
    hide Run, Mending, Apply, Matches, Ordered, GoApply, Inv, ApplyLog, SettledAsRecorded, PlanOrder, RenderOk, SiteOk, AllSteps;
    var rest;
    rest, w' := MendOn(site, w1, key, t, work1, active);
    moves := [s] + rest;
    OneMoreStep(rest, key, t);
    RunCons(site, w, s, rest);
    LogOfRepair(w.log, StatusWrite(key), ApplyLog(key, work.plan, work.order));
  }

  /** The re-apply, the check and the record. */
  lemma MendOn(site: Site, w: World, key: Key, t: Turn, work: Work, active: string) returns (moves: seq<Move>, w': World)
    requires SiteOk(site) && RenderOk(site) && Inv(site, w) && Good(t) && Mending(site, w, key, work) && ActiveOk(site, work, active)
    requires PassOf(w, key) == GoApply(site, work, work.plan, work.order, DriftApply(active), t.now)
    ensures AllSteps(moves, key, t)
    ensures w' == Run(site, w, moves) && SettledAsRecorded(site, w', key, work.svc.spec, work.alloc)
    ensures w'.log == w.log + ApplyLog(key, work.plan, work.order) + [StatusWrite(key)]
  {
    hide Run, Mending, Apply, Matches, Ordered, GoApply, GoReady, Inv, ApplyLog, SettledAsRecorded, RenderOk, SiteOk, ActiveOk, Looked, PassOf;
    var s := PassStep(key, t);
    var first := DriveReapply(site, w, key, t, work, active);
    var w2 := Run(site, w, first);
    InvRun(site, w, first);
    MendingStays(site, w, w2, key, work);
    w' := RepairWrites(site, w2, key, t, work, active);
    moves := first + [s];
    RunThrough(site, w, first, s);
  }

  lemma LogOfRepair(log: seq<Event>, e: Event, calls: seq<Event>)
    ensures log + [e] + calls + [e] == log + ([e] + calls + [e])
  {
  }

  lemma MendingStays(site: Site, w: World, w': World, key: Key, work: Work)
    requires Mending(site, w, key, work) && SameStore(w, w') && Inv(site, w')
    ensures Mending(site, w', key, work)
  {
  }

  lemma NoteMends(site: Site, w: World, key: Key, t: Turn, work: Work, active: string) returns (w': World, work': Work)
    requires SiteOk(site) && t.api.Done? && NoteAhead(site, w, key, work, active)
    ensures w' == Apply(site, w, PassStep(key, t)) && w'.log == w.log + [StatusWrite(key)]
    ensures PassOf(w', key) == GoApply(site, work', work'.plan, work'.order, DriftApply(active), t.now)
    ensures Inv(site, w') && Mending(site, w', key, work') && work' == work.(svc := work'.svc) && work'.svc.spec == work.svc.spec
  {
    hide GoApply;
    w', work' := NoteLands(site, w, key, t, work, active);
    NotReadyNow(site, w, key, t, work, active);
    ApplyOk(site, w, PassStep(key, t));
  }

  lemma NotReadyNow(site: Site, w: World, key: Key, t: Turn, work: Work, active: string)
    requires t.api.Done? && key in w.objects && Fresh(work, w.objects[key]) && PassOf(w, key) == NotingDrift(work, active)
    ensures var w' := Apply(site, w, PassStep(key, t)); key in w'.objects && !IsReady(w'.objects[key].status)
  {
    hide GoApply;
    assert Step(site, w, key, t) == StepNotingDrift(site, w, key, work, active, t);
  }

  /** The repaired pass writes its record. */
  lemma RepairWrites(site: Site, w: World, key: Key, t: Turn, work: Work, active: string) returns (w': World)
    requires SiteOk(site) && RenderOk(site) && Good(t) && Mending(site, w, key, work) && ActiveOk(site, work, active)
    requires PassOf(w, key) == GoReady(site, Looked(work, AllSeen(work.order)), active, t.now)
    ensures w' == Apply(site, w, PassStep(key, t)) && w'.log == w.log + [StatusWrite(key)]
    ensures SettledAsRecorded(site, w', key, work.svc.spec, work.alloc)
  {
    w' := Apply(site, w, PassStep(key, t));
    RecordIsDue(site, w, key, t, work, active);
    assert KeyOk(site, w, key);
    RecordingSettles(site, w, key, t);
    ApplyOk(site, w, PassStep(key, t));
    WriteRecords(site, w, key, t);
    hide Run, Apply, Step, Settled, Ripe, KeyOk, OwnRecord;
  }

  /** The repaired pass is about to write the record of its own object. */
  lemma RecordIsDue(site: Site, w: World, key: Key, t: Turn, work: Work, active: string)
    requires Mending(site, w, key, work) && ActiveOk(site, work, active)
    requires PassOf(w, key) == GoReady(site, Looked(work, AllSeen(work.order)), active, t.now)
    ensures var p := PassOf(w, key);
      && p.Recording? && Ordered(p.work) && Unedited(p.work, w.objects[key]) && OwnRecord(site, p.work, p.next)
      && NoteLanded(p.base, w.objects[key]) && p.work.alloc == work.alloc
  {
    hide Inv;
  }

  lemma WriteRecords(site: Site, w: World, key: Key, t: Turn)
    requires KeyOk(site, w, key) && PassOf(w, key).Recording? && key in w.objects && t.api.Done?
    ensures var w' := Apply(site, w, PassStep(key, t));
      && w'.log == w.log + [StatusWrite(key)] && key in w'.objects && w'.objects[key].spec == w.objects[key].spec
      && w'.objects[key].status.allocations == Some(PassOf(w, key).work.alloc)
  {
  }

  // ---- the whole run -----------------------------------------------------------------------------

  /** The calls of an abandoned edit: the update to it, and the repair back. */
  function AbandonedLog(key: Key, prev: Plan, next: Plan): seq<Event> {
    UpdateLog(key, prev, next) + [StatusWrite(key)] + RepairCalls(key, prev)
  }

  predicate AbandonMove(m: Move, key: Key, t: Turn, a: ServiceSpec, b: ServiceSpec) {
    BackMove(m, key, t, a, b) || m == PassStep(key, Failing(t, a.preferredSpine))
  }

  /** At every site, over every settled service: an edit to a spec of other hashes is
      applied, fails its first check and is taken back; the next pass skips its apply,
      fails a check and repairs. The service is settled again, under the record it had. */
  lemma AbandonedEditSettles(site: Site, w: World, key: Key, b: ServiceSpec, t: Turn) returns (moves: seq<Move>, w': World)
    requires SiteOk(site) && RenderOk(site) && Inv(site, w) && Good(t)
    requires key in w.objects && Settled(site, key, w.objects[key]) && PassOf(w, key).Idle?
    requires var alloc := w.objects[key].status.allocations.value;
      site.render(b, alloc).Some? && !HashesEqual(w.objects[key].status.configHashes, PlanHashes(site, site.render(b, alloc).value))
    ensures forall m :: m in moves ==> AbandonMove(m, key, t, w.objects[key].spec, b)
    ensures w' == Run(site, w, moves) && SettledAsRecorded(site, w', key, w.objects[key].spec, w.objects[key].status.allocations.value)
    ensures var alloc := w.objects[key].status.allocations.value;
      w'.log == w.log + AbandonedLog(key, site.render(w.objects[key].spec, alloc).value, site.render(b, alloc).value)
  {
    var first, w2 := EditBackSkips(site, w, key, b, t);
    InvRun(site, w, first);
    hide Run, Inv, HashesEqual, SettledAsRecorded, UpdateLog, RepairCalls, BackMove, AbandonMove, Skips, LastTook, Step;
    var second;
    second, w' := RepairSettles(site, w2, key, w.objects[key], t);
    moves := first + second;
    RunConcat(site, w, first, second);
    AbandonMoves(moves, first, second, key, t, w.objects[key].spec, b);
    var alloc := w.objects[key].status.allocations.value;
    var prev, next := site.render(w.objects[key].spec, alloc).value, site.render(b, alloc).value;
    LogsJoin(w.log, UpdateLog(key, prev, next) + [StatusWrite(key)], RepairCalls(key, prev));
  }

  lemma AbandonMoves(moves: seq<Move>, first: seq<Move>, second: seq<Move>, key: Key, t: Turn, a: ServiceSpec, b: ServiceSpec)
    requires moves == first + second && forall m :: m in first ==> BackMove(m, key, t, a, b)
    requires forall m :: m in second ==> m == PassStep(key, t) || m == PassStep(key, Failing(t, a.preferredSpine))
    ensures forall m :: m in moves ==> AbandonMove(m, key, t, a, b)
  {
  }

  lemma AbandonedLogIs(log: seq<Event>, key: Key, prev: Plan, next: Plan)
    ensures log + AbandonedLog(key, prev, next)
      == ((log + UpdateLog(key, prev, next)) + [StatusWrite(key)] + [StatusWrite(key)]) + ApplyLog(key, prev, PlanOrder(prev)) + [StatusWrite(key)]
  {
    FiveLogs(log, UpdateLog(key, prev, next), [StatusWrite(key)], ApplyLog(key, prev, PlanOrder(prev)));
  }

  lemma FiveLogs(log: seq<Event>, u: seq<Event>, e: seq<Event>, a: seq<Event>)
    ensures log + (u + e + (e + a + e)) == ((log + u) + e + e) + a + e
  {
  }

  /** Every node of the recorded render has its ops as the last call. */
  lemma AbandonedIsOnRecord(log: seq<Event>, key: Key, prev: Plan, next: Plan, n: Node)
    requires n in prev.nodes
    ensures LastTook(log + AbandonedLog(key, prev, next), key, n, prev.nodes[n].ops)
  {
    hide AbandonedLog, UpdateLog, ApplyLog;
    var before := (log + UpdateLog(key, prev, next)) + [StatusWrite(key)] + [StatusWrite(key)];
    AbandonedLogIs(log, key, prev, next);
    LastOfApply(before, key, prev, PlanOrder(prev), n);
    LastCallNext(before + ApplyLog(key, prev, PlanOrder(prev)), StatusWrite(key), key, n);
  }

  /** A node of the edit's plan holds the recorded ops over what the update left. */
  lemma AbandonedHolds(log: seq<Event>, key: Key, prev: Plan, next: Plan, n: Node, cuts: nat -> nat)
    requires n in next.nodes
    ensures Held(log + AbandonedLog(key, prev, next), n, cuts) == Applied(prev, n, Updated(prev, next, n, Held(log, n, cuts)))
  {
    hide AbandonedLog, UpdateLog, ApplyLog, Held, Updated, DoAll;
    var sent := log + UpdateLog(key, prev, next);
    AbandonedLogIs(log, key, prev, next);
    HeldUpdated(log, key, prev, next, n, cuts);
    HeldNext(sent, StatusWrite(key), n, cuts);
    HeldNext(sent + [StatusWrite(key)], StatusWrite(key), n, cuts);
    var before := sent + [StatusWrite(key)] + [StatusWrite(key)];
    ReappliedHolds(before, key, prev, n, cuts);
    HeldNext(before + ApplyLog(key, prev, PlanOrder(prev)), StatusWrite(key), n, cuts);
  }

  lemma ReappliedHolds(log: seq<Event>, key: Key, plan: Plan, n: Node, cuts: nat -> nat)
    ensures Held(log + ApplyLog(key, plan, PlanOrder(plan)), n, cuts) == Applied(plan, n, Held(log, n, cuts))
  {
    if n in plan.nodes {
      HeldApplied(log, key, plan, PlanOrder(plan), n, cuts);
    } else {
      HeldOff(log, key, plan, PlanOrder(plan), n, cuts);
    }
  }

  /** The recorded ops touch every cell the edit's render makes here. */
  ghost predicate Overwrites(prev: Plan, next: Plan, n: Node) {
    forall c :: Makes(OpsOn(next, n), c) ==> Verdicts(Atoms(OpsOn(prev, n)), c).Left?
  }

  /** After an abandoned edit a node of its plan holds exactly the recorded render
      precisely when the recorded ops touch all that the edit's render makes there;
      whatever they do not touch stays. */
  lemma AbandonedIsExact(log: seq<Event>, key: Key, prev: Plan, next: Plan, n: Node, cuts: nat -> nat)
    requires n in next.nodes
    ensures ExactOn(next, prev, n, Held(log + AbandonedLog(key, prev, next), n, cuts)) <==> Overwrites(prev, next, n)
    ensures forall c :: Makes(OpsOn(next, n), c) && Verdicts(Atoms(OpsOn(prev, n)), c) == Untouched ==>
      Look(Held(log + AbandonedLog(key, prev, next), n, cuts), c) == EntryLeft(OpsOn(next, n), c)
  {
    AbandonedHolds(log, key, prev, next, n, cuts);
    ReappliedIsExact(prev, next, n, Held(log, n, cuts));
  }

  lemma ReappliedIsExact(prev: Plan, next: Plan, n: Node, d: Device)
    ensures ExactOn(next, prev, n, Applied(prev, n, Updated(prev, next, n, d))) <==> Overwrites(prev, next, n)
    ensures forall c :: Makes(OpsOn(next, n), c) && Verdicts(Atoms(OpsOn(prev, n)), c) == Untouched ==>
      Look(Applied(prev, n, Updated(prev, next, n, d)), c) == EntryLeft(OpsOn(next, n), c)
  {
    var u := Updated(prev, next, n, d);
    forall c ensures Look(Applied(prev, n, u), c) == CellLeft(Verdicts(Atoms(OpsOn(prev, n)), c), Look(u, c)) {
      LastWriterWins(u, Atoms(OpsOn(prev, n)), c);
    }
    forall c | Makes(OpsOn(next, n), c) ensures Look(u, c) == EntryLeft(OpsOn(next, n), c) {
      LastWriterWins(Removed(prev, next, n, d), Atoms(OpsOn(next, n)), c);
    }
    if !Overwrites(prev, next, n) {
      var c :| Makes(OpsOn(next, n), c) && !Verdicts(Atoms(OpsOn(prev, n)), c).Left?;
      assert Look(Applied(prev, n, u), c) != EntryLeft(OpsOn(prev, n), c);
    }
  }

  function CellLeft(v: Verdict, was: Option<Entry>): Option<Entry> {
    if v.Left? then v.entry else was
  }
}
