/** Runs with a given end, at every site: the first activation, an edit that
    lands inside an update, and a drift note that is lost. */
module PassRace {
  import opened Text
  import opened ServiceObjects
  import opened PassMachine
  import opened PassInvariant
  import opened PassRuns
  import opened PassRecord
  import opened PassFits
  import opened PassDrive
  import opened PassSilence

  /** Every call succeeds; the served id path yields no value. */
  predicate Good(t: Turn) {
    t.gate.None? && t.api.Done? && !t.served && t.exec.Accepted? && t.verify.Passed? && t.path.Rides? && t.probe.ProbePasses?
  }

  lemma {:induction false} InvRun(site: Site, w: World, moves: seq<Move>)
    requires SiteOk(site) && Inv(site, w)
    ensures Inv(site, Run(site, w, moves))
    decreases |moves|
  {
    if moves != [] {
      InvRun(site, w, moves[..|moves| - 1]);
      ApplyOk(site, Run(site, w, moves[..|moves| - 1]), moves[|moves| - 1]);
    }
  }

  // ---- the first activation ----------------------------------------------------------------

  function Prefixes(waiting: seq<Attachment>, prefixes: map<Node, string>, addr: string): map<Node, string> {
    if waiting == [] then prefixes else Prefixes(waiting[1..], prefixes[waiting[0].node := addr], addr)
  }

  /** What a lone service is allocated: the first id, and this prefix for every node. */
  function FirstIds(site: Site, spec: ServiceSpec, addr: string): Allocations {
    Allocations(site.firstId, VrfName(site.firstId), Prefixes(OrderedAttachments(spec.attachments), map[], addr))
  }

  lemma {:induction false} DrivePrefixes(site: Site, w: World, key: Key, t: Turn, svc: Service, id: int, waiting: seq<Attachment>,
                                         prefixes: map<Node, string>) returns (moves: seq<Move>)
    requires PassOf(w, key) == GoPrefix(site, key, svc, id, waiting, prefixes, t.now) && t.api.Done?
    ensures AllSteps(moves, key, t)
    ensures var w' := Run(site, w, moves);
      w'.objects == w.objects &&
      PassOf(w', key) == GoPlan(site, key, svc, Allocations(id, VrfName(id), Prefixes(waiting, prefixes, t.address)), t.now)
    decreases |waiting|
  {
    if waiting == [] {
      moves := [];
    } else {
      PrefixStep(site, w, key, t, svc, id, waiting, prefixes);
      var rest := DrivePrefixes(site, Apply(site, w, PassStep(key, t)), key, t, svc, id, waiting[1..], prefixes[waiting[0].node := t.address]);
      moves := [PassStep(key, t)] + rest;
      RunCons(site, w, PassStep(key, t), rest);
    }
  }

  lemma PrefixStep(site: Site, w: World, key: Key, t: Turn, svc: Service, id: int, waiting: seq<Attachment>, prefixes: map<Node, string>)
    requires waiting != [] && PassOf(w, key) == ClaimingPrefix(svc, id, waiting, prefixes) && t.api.Done?
    ensures var w1 := Apply(site, w, PassStep(key, t));
      && w1.objects == w.objects
      && PassOf(w1, key) == GoPrefix(site, key, svc, id, waiting[1..], prefixes[waiting[0].node := t.address], t.now)
  {
    assert Step(site, w, key, t) == StepClaimingPrefix(site, w, key, svc, id, waiting, prefixes, t);
  }

  function Newborn(spec: ServiceSpec): Service {
    Service(spec, 1, false, true, EmptyStatus)
  }

  /** Created, finalized, read: on to the claims. */
  lemma FromNothing(site: Site, key: Key, spec: ServiceSpec, t: Turn)
    requires Good(t) && site.located(spec)
    ensures var w := Run(site, EmptyWorld, [Create(key, spec), PassStep(key, t), PassStep(key, t), PassStep(key, t)]);
      w.objects == map[key := Newborn(spec)] && w.leases == map[] && PassOf(w, key) == ClaimingId(Newborn(spec))
  {
    var s := PassStep(key, t);
    var w1 := Apply(site, EmptyWorld, Create(key, spec));
    var w2 := At(w1, key, AddingFinalizer);
    var w3 := StepAddingFinalizer(w2, key, t);
    assert Step(site, w1, key, t) == w2;
    assert Step(site, w2, key, t) == w3 && w3.objects == map[key := Newborn(spec)] && PassOf(w3, key).Idle?;
    RunFour(site, EmptyWorld, Create(key, spec), s, s, s);
  }

  lemma RunFour(site: Site, w: World, a: Move, b: Move, c: Move, d: Move)
    ensures Run(site, w, [a, b, c, d]) == Apply(site, Apply(site, Apply(site, Apply(site, w, a), b), c), d)
  {
    assert [a, b, c, d] == [a] + ([b] + ([c] + [d]));
    RunCons(site, w, a, [b] + ([c] + [d]));
    RunCons(site, Apply(site, w, a), b, [c] + [d]);
    RunCons(site, Apply(site, Apply(site, w, a), b), c, [d]);
    RunOne(site, Apply(site, Apply(site, Apply(site, w, a), b), c), d);
  }

  lemma RunThree(site: Site, w: World, a: Move, b: Move, c: Move)
    ensures Run(site, w, [a, b, c]) == Apply(site, Apply(site, Apply(site, w, a), b), c)
  {
    assert [a, b, c] == [a] + ([b] + [c]);
    RunCons(site, w, a, [b] + [c]);
    RunCons(site, Apply(site, w, a), b, [c]);
    RunOne(site, Apply(site, Apply(site, w, a), b), c);
  }

  /** The id: the served path yields none, the pool is free. */
  lemma FirstId(site: Site, w: World, key: Key, t: Turn, svc: Service)
    requires Good(t) && site.firstId <= site.lastId && w.leases == map[] && PassOf(w, key) == ClaimingId(svc)
    ensures var w' := Run(site, w, [PassStep(key, t), PassStep(key, t), PassStep(key, t)]);
      w'.objects == w.objects && PassOf(w', key) == GoPrefix(site, key, svc, site.firstId, OrderedAttachments(svc.spec.attachments), map[], t.now)
  {
    var s := PassStep(key, t);
    var w1 := StepClaimingId(site, w, key, svc, t);
    var w2 := StepListingLeases(site, w1, key, svc, t);
    var w3 := StepCreatingLease(site, w2, key, svc, site.firstId, {}, t);
    assert Step(site, w, key, t) == w1;
    assert w1.leases.Keys == {} && OwnLeases(site, w1.leases, key) == {};
    assert Step(site, w1, key, t) == w2 && PassOf(w2, key) == CreatingLease(svc, site.firstId, {});
    assert Step(site, w2, key, t) == w3;
    RunThree(site, w, s, s, s);
  }

  /** From nothing to ready: at every site, a service whose spec renders under the
      first id and some prefix is settled after a run in which every call succeeds. */
  lemma ActivationSettles(site: Site, key: Key, spec: ServiceSpec, t: Turn) returns (moves: seq<Move>)
    requires SiteOk(site) && RenderOk(site) && site.firstId <= site.lastId && Good(t)
    requires site.render(spec, FirstIds(site, spec, t.address)).Some?
    ensures var w := Run(site, EmptyWorld, moves);
      && key in w.objects && Settled(site, key, w.objects[key]) && PassOf(w, key).Idle?
      && w.objects[key].spec == spec && w.objects[key].status.allocations == Some(FirstIds(site, spec, t.address))
  {
    var s := PassStep(key, t);
    var svc, alloc := Newborn(spec), FirstIds(site, spec, t.address);
    var first := [Create(key, spec), s, s, s];
    FromNothing(site, key, spec, t);
    var w1 := Run(site, EmptyWorld, first);
    FirstId(site, w1, key, t, svc);
    var w2 := Run(site, w1, [s, s, s]);
    var third := DrivePrefixes(site, w2, key, t, svc, site.firstId, OrderedAttachments(spec.attachments), map[]);
    var w3 := Run(site, w2, third);
    RunConcat(site, EmptyWorld, first, [s, s, s]);
    RunConcat(site, EmptyWorld, first + [s, s, s], third);
    var fourth := FirstRecord(site, w3, key, t, svc, alloc);
    RunConcat(site, EmptyWorld, first + [s, s, s] + third, fourth);
    moves := first + [s, s, s] + third + fourth;
    var w4 := Run(site, EmptyWorld, moves);
    RunOk(site, moves);
    assert KeyOk(site, w4, key);
    RecordingSettles(site, w4, key, t);
    RecordWritten(site, w4, key, t);
    RunConcat(site, EmptyWorld, moves, [s]);
    RunOne(site, w4, s);
    moves := moves + [s];
  }

  /** The first application, to its record. */
  lemma FirstRecord(site: Site, w: World, key: Key, t: Turn, svc: Service, alloc: Allocations) returns (moves: seq<Move>)
    requires Good(t) && site.render(svc.spec, alloc).Some? && svc.status == EmptyStatus
    requires w.objects == map[key := svc] && !svc.deleting && PassOf(w, key) == GoPlan(site, key, svc, alloc, t.now)
    ensures var w' := Run(site, w, moves);
      && w'.objects == w.objects && PassOf(w', key).Recording? && Sound(site, PassOf(w', key))
      && Unedited(PassOf(w', key).work, svc) && PassOf(w', key).base.observedGeneration == svc.status.observedGeneration
      && MergePatch(svc.status, PassOf(w', key).base, PassOf(w', key).next).allocations == Some(alloc)
  {
    var plan := site.render(svc.spec, alloc).value;
    var work := Work(key, svc, alloc, plan, PlanOrder(plan), PlanHashes(site, plan), false, false);
    assert PlanHashes(site, plan).Keys == plan.nodes.Keys;
    var first := DriveApply(site, w, key, t, work, plan, work.order, FirstApply);
    var second := DriveRecord(site, Run(site, w, first), key, t, work);
    RunConcat(site, w, first, second);
    moves := first + second;
    var looked := Looked(work, AllSeen(work.order));
    FirstWrite(site, key, looked, Stamp(work, t.now), SpineSeen(site, looked, t.path.spine), t.now);
  }

  lemma FirstWrite(site: Site, key: Key, work: Work, dataPath: Option<int>, active: string, now: int)
    requires Matches(site, work) && Ordered(work) && ActiveOk(site, work, active) && work.key == key
    requires work.svc.status == EmptyStatus.(nodes := work.svc.status.nodes)
    ensures var pass := GoRecord(site, work, dataPath, active, now);
      && pass.Recording? && pass.work == work && Sound(site, pass) && pass.base.observedGeneration == 0
      && MergePatch(EmptyStatus, pass.base, pass.next).allocations == Some(work.alloc)
  {
  }

  // ---- an edit inside an update --------------------------------------------------------------

  /** The settled object after an edit. */
  function Edited(obj: Service, spec: ServiceSpec): Service {
    obj.(spec := spec, generation := obj.generation + 1)
  }

  /** The work of an update. */
  function UpdateWork(site: Site, key: Key, obj: Service): Work
    requires obj.status.allocations.Some? && site.render(obj.spec, obj.status.allocations.value).Some?
  {
    OwnWork(site, key, obj).(sameRender := false)
  }

  /** The pass reads the object and goes to remove what the previous render made. */
  ghost predicate UpdateStarts(site: Site, w: World, key: Key, t: Turn, work: Work, prev: Plan) {
    Apply(site, w, PassStep(key, t)) == At(w, key, GoRemove(site, work, prev, RemovalNodes(prev, work.plan), t.now))
  }

  /** An edit of a settled object to a spec of other hashes starts an update. */
  lemma EditStartsUpdate(site: Site, w: World, key: Key, b: ServiceSpec, t: Turn) returns (prev: Plan)
    requires RenderOk(site) && Good(t) && key in w.objects && Settled(site, key, w.objects[key]) && PassOf(w, key).Idle?
    requires var alloc := w.objects[key].status.allocations.value;
      site.render(b, alloc).Some? && !HashesEqual(w.objects[key].status.configHashes, PlanHashes(site, site.render(b, alloc).value))
    ensures site.render(w.objects[key].spec, w.objects[key].status.allocations.value) == Some(prev)
    ensures UpdateStarts(site, Apply(site, w, Edit(key, b)), key, t, UpdateWork(site, key, Edited(w.objects[key], b)), prev)
  {
    var w1 := Apply(site, w, Edit(key, b));
    var obj := Edited(w.objects[key], b);
    EditReads(site, w, key, b, t);
    prev := site.render(w.objects[key].spec, obj.status.allocations.value).value;
    assert GoPlan(site, key, obj, obj.status.allocations.value, t.now)
        == GoRemove(site, UpdateWork(site, key, obj), prev, RemovalNodes(prev, UpdateWork(site, key, obj).plan), t.now);
  }

  /** An edit that still renders is read with the recorded identifiers. */
  lemma EditReads(site: Site, w: World, key: Key, b: ServiceSpec, t: Turn)
    requires RenderOk(site) && t.gate.None? && key in w.objects && Settled(site, key, w.objects[key]) && PassOf(w, key).Idle?
    requires site.render(b, w.objects[key].status.allocations.value).Some?
    ensures var w1 := Apply(site, w, Edit(key, b)); var obj := Edited(w.objects[key], b);
      Apply(site, w1, PassStep(key, t)) == At(w1, key, GoPlan(site, key, obj, obj.status.allocations.value, t.now))
  {
    var w1 := Apply(site, w, Edit(key, b));
    assert w1.objects[key] == Edited(w.objects[key], b) && PassOf(w1, key).Idle?;
    assert Reusable(site, w1.objects[key], site.corr(key));
    assert Step(site, w1, key, t) == Start(site, w1, key, t);
  }

  /** The update of an edited object, to its verify: every removal and every apply
      goes through. */
  lemma DriveSent(site: Site, w: World, key: Key, t: Turn, work: Work, prev: Plan) returns (moves: seq<Move>)
    requires Good(t) && UpdateStarts(site, w, key, t, work, prev) && work.order == PlanOrder(work.plan)
    ensures AllSteps(moves, key, t)
    ensures var w' := Run(site, w, moves);
      SameStore(w, w') && w'.log == w.log + UpdateLog(key, prev, work.plan) && PassOf(w', key) == GoVerify(site, work, work.order, [], UpdateVerify, t.now)
  {
    hide Run, GoRemove, GoVerify, UpdateLog, Apply;
    var rest := DriveSentOn(site, At(w, key, GoRemove(site, work, prev, RemovalNodes(prev, work.plan), t.now)), key, t, work, prev);
    moves := [PassStep(key, t)] + rest;
    OneMoreStep(rest, key, t);
    RunCons(site, w, PassStep(key, t), rest);
  }

  lemma DriveSentOn(site: Site, w: World, key: Key, t: Turn, work: Work, prev: Plan) returns (moves: seq<Move>)
    requires t.exec.Accepted? && PassOf(w, key) == GoRemove(site, work, prev, RemovalNodes(prev, work.plan), t.now) && work.order == PlanOrder(work.plan)
    ensures AllSteps(moves, key, t)
    ensures var w' := Run(site, w, moves);
      SameStore(w, w') && w'.log == w.log + UpdateLog(key, prev, work.plan) && PassOf(w', key) == GoVerify(site, work, work.order, [], UpdateVerify, t.now)
  {
    SentGoes(site, work, prev, t.now);
    hide GoRemove, GoVerify, GoApply, Run, PassOf;
    var first := DriveRemove(site, w, key, t, work, prev, RemovalNodes(prev, work.plan));
    var rest := DriveApply(site, Run(site, w, first), key, t, work, work.plan, work.order, UpdateApply(prev));
    RunConcat(site, w, first, rest);
    moves := first + rest;
    LogsJoin(w.log, RollbackLog(key, prev, RemovalNodes(prev, work.plan)), ApplyLog(key, work.plan, work.order));
  }

  lemma SentGoes(site: Site, work: Work, prev: Plan, now: int)
    ensures GoApply(site, work, work.plan, [], UpdateApply(prev), now) == GoVerify(site, work, work.order, [], UpdateVerify, now)
  {
    hide GoVerify;
  }

  lemma LogsJoin(log: seq<Event>, a: seq<Event>, b: seq<Event>)
    ensures (log + a) + b == log + (a + b)
  {
  }

  /** And to its record write. */
  lemma DriveUpdate(site: Site, w: World, key: Key, t: Turn, work: Work, prev: Plan) returns (moves: seq<Move>)
    requires Good(t) && UpdateStarts(site, w, key, t, work, prev) && work.order == PlanOrder(work.plan)
    ensures AllSteps(moves, key, t)
    ensures var w' := Run(site, w, moves);
      && SameStore(w, w') && w'.log == w.log + UpdateLog(key, prev, work.plan)
      && PassOf(w', key) == RecordingUpdate(Looked(work, AllSeen(work.order)), t.now)
  {
    hide GoVerify, Run, UpdateStarts;
    var first := DriveSent(site, w, key, t, work, prev);
    var second := DriveVerify(site, Run(site, w, first), key, t, work, work.order, [], UpdateVerify);
    assert [] + AllSeen(work.order) == AllSeen(work.order);
    RunConcat(site, w, first, second);
    moves := first + second;
  }

  /** The pass has ended, and the record is this. */
  ghost predicate Recorded(site: Site, w: World, w': World, key: Key, alloc: Allocations, hashes: map<Node, int>)
    requires key in w.objects
  {
    && PassOf(w', key).Idle? && key in w'.objects
    && w'.objects[key] == w.objects[key].(status := w'.objects[key].status)
    && w'.objects[key].status.appliedSpec == Some(w.objects[key].spec)
    && w'.objects[key].status.allocations == Some(alloc)
    && w'.objects[key].status.configHashes == hashes
    && w'.objects[key].status.correlationId == site.corr(key)
    && NoCalls(w.log, w'.log)
  }

  /** The update's record write, answered with an object edited again, and on to the
      ready stage's record. */
  lemma DriveRefreshed(site: Site, w: World, key: Key, t: Turn, work: Work) returns (moves: seq<Move>)
    requires Good(t) && key in w.objects && PassOf(w, key) == RecordingUpdate(work, t.now) && work.key == key
    requires SameRecord(work.svc.status, w.objects[key].status) && work.svc.status.dataPath.Some?
    requires work.svc.status.observedGeneration < work.svc.generation < w.objects[key].generation
    ensures AllSteps(moves, key, t) && Recorded(site, w, Run(site, w, moves), key, work.alloc, work.hashes)
  {
    var s := PassStep(key, t);
    var w1 := StepRecordingUpdate(site, w, key, work, t.now, t);
    assert Step(site, w, key, t) == w1;
    UpdateLands(site, w.objects[key].status, work, t.now);
    OneWrite(w.log, StatusWrite(key));
    hide Run, GoVerify, NoCalls, MergePatch, SetReadyOutcome;
    var rest := DriveRerecord(site, w1, key, t, work.(svc := w1.objects[key]));
    RunCons(site, w, s, rest);
    moves := [s] + rest;
    OneMoreStep(rest, key, t);
    NoCallsOn(w.log, w1.log, Run(site, w1, rest).log);
  }

  lemma DriveRerecord(site: Site, w: World, key: Key, t: Turn, work: Work) returns (moves: seq<Move>)
    requires Good(t) && key in w.objects && work.svc == w.objects[key] && work.key == key
    requires work.svc.status.allocations == Some(work.alloc) && work.svc.status.configHashes == work.hashes
    requires work.svc.status.observedGeneration < work.svc.generation && work.svc.status.dataPath.Some?
    requires PassOf(w, key) == GoVerify(site, work, work.order, [], PlainVerify, t.now)
    ensures AllSteps(moves, key, t) && Recorded(site, w, Run(site, w, moves), key, work.alloc, work.hashes)
  {
    var s := PassStep(key, t);
    hide Run;
    var middle := DriveRecord(site, w, key, t, work);
    var w2 := Run(site, w, middle);
    RefreshedRecord(site, w2, key, t, work);
    RunConcat(site, w, middle, [s]);
    RunOne(site, w2, s);
    moves := middle + [s];
  }

  /** What the update's write leaves in the status. */
  lemma UpdateLands(site: Site, stored: Status, work: Work, now: int)
    requires SameRecord(work.svc.status, stored) && work.svc.status.observedGeneration < work.svc.generation
    ensures var base := work.svc.status;
      var st := MergePatch(stored, base, SetReadyOutcome(base, work.svc.generation, work.hashes, work.svc.spec, site.corr(work.key),
                                                         base.activePath, work.alloc, now));
      st.allocations == Some(work.alloc) && st.configHashes == work.hashes && st.observedGeneration == work.svc.generation
      && st.dataPath == base.dataPath
  {
  }

  lemma RefreshedRecord(site: Site, w: World, key: Key, t: Turn, work: Work)
    requires Good(t) && key in w.objects && work.svc == w.objects[key] && work.key == key
    requires work.svc.status.allocations == Some(work.alloc) && work.svc.status.configHashes == work.hashes
    requires work.svc.status.observedGeneration < work.svc.generation && work.svc.status.dataPath.Some?
    requires var looked := Looked(work, AllSeen(work.order));
      PassOf(w, key) == GoRecord(site, looked, Stamp(work, t.now), SpineSeen(site, looked, t.path.spine), t.now)
    ensures Recorded(site, w, Apply(site, w, PassStep(key, t)), key, work.alloc, work.hashes)
  {
    assert PassOf(w, key).Recording?;
    OneWrite(w.log, StatusWrite(key));
  }

  /** At every site, over every settled service: an edit to a spec of other hashes,
      and another edit before the update's record write is answered. The ready
      stage then records the second spec beside the hashes of the first, so the
      record is faithful exactly when the two render to the same hashes. */
  lemma EditDuringUpdateBreaksRecord(site: Site, w: World, key: Key, b: ServiceSpec, c: ServiceSpec, t: Turn)
    returns (moves: seq<Move>, w': World)
    requires SiteOk(site) && RenderOk(site) && key in w.objects && Settled(site, key, w.objects[key]) && PassOf(w, key).Idle? && Good(t)
    requires var alloc := w.objects[key].status.allocations.value;
      site.render(b, alloc).Some? && !HashesEqual(w.objects[key].status.configHashes, PlanHashes(site, site.render(b, alloc).value))
    ensures forall m :: m in moves ==> EditMove(m, key, t, b, c)
    ensures w' == Run(site, w, moves) && ReRecorded(site, w', key, c, UpdateWork(site, key, Edited(w.objects[key], b)))
    ensures w'.objects[key] == Edited(Edited(w.objects[key], b), c).(status := w'.objects[key].status)
    ensures var alloc := w.objects[key].status.allocations.value; var prev := site.render(w.objects[key].spec, alloc);
      prev.Some? && NoCalls(w.log + UpdateLog(key, prev.value, site.render(b, alloc).value), w'.log)
    ensures Faithful(site, w'.objects[key].status) <==>
      IsRender(site, c, w.objects[key].status.allocations.value, PlanHashes(site, site.render(b, w.objects[key].status.allocations.value).value))
  {
    var work := UpdateWork(site, key, Edited(w.objects[key], b));
    var prev := EditStartsUpdate(site, w, key, b, t);
    moves, w' := TwoEdits(site, w, key, t, b, c, work, prev);
  }

  predicate EditMove(m: Move, key: Key, t: Turn, b: ServiceSpec, c: ServiceSpec) {
    m == Edit(key, b) || m == Edit(key, c) || m == PassStep(key, t)
  }

  lemma TwoEdits(site: Site, w: World, key: Key, t: Turn, b: ServiceSpec, c: ServiceSpec, work: Work, prev: Plan)
    returns (moves: seq<Move>, w': World)
    requires Good(t) && key in w.objects && work.key == key && work.svc == Edited(w.objects[key], b)
    requires work.svc.status.observedGeneration < work.svc.generation && work.svc.status.dataPath.Some?
    requires UpdateStarts(site, Apply(site, w, Edit(key, b)), key, t, work, prev) && work.order == PlanOrder(work.plan)
    ensures forall m :: m in moves ==> EditMove(m, key, t, b, c)
    ensures w' == Run(site, w, moves) && ReRecorded(site, w', key, c, work) && NoCalls(w.log + UpdateLog(key, prev, work.plan), w'.log)
    ensures w'.objects[key] == Edited(Edited(w.objects[key], b), c).(status := w'.objects[key].status)
  {
    hide Run;
    var w1 := Apply(site, w, Edit(key, b));
    var first := DriveUpdate(site, w1, key, t, work, prev);
    var second;
    second, w' := SecondEdit(site, Run(site, w1, first), key, t, c, work);
    RunParts(site, w, Edit(key, b), first, [Edit(key, c)] + second);
    moves := [Edit(key, b)] + (first + ([Edit(key, c)] + second));
    EditMoves(moves, first, second, key, t, b, c);
  }

  lemma EditMoves(moves: seq<Move>, first: seq<Move>, second: seq<Move>, key: Key, t: Turn, b: ServiceSpec, c: ServiceSpec)
    requires moves == [Edit(key, b)] + (first + ([Edit(key, c)] + second)) && AllSteps(first, key, t) && AllSteps(second, key, t)
    ensures forall m :: m in moves ==> EditMove(m, key, t, b, c)
  {
  }

  /** The pass has ended, and has recorded this spec beside the hashes of its work. */
  ghost predicate ReRecorded(site: Site, w: World, key: Key, spec: ServiceSpec, work: Work) {
    && PassOf(w, key).Idle? && key in w.objects && w.objects[key].spec == spec
    && w.objects[key].status.appliedSpec == Some(spec) && w.objects[key].status.allocations == Some(work.alloc)
    && w.objects[key].status.configHashes == work.hashes && w.objects[key].status.correlationId == site.corr(key)
  }

  lemma SecondEdit(site: Site, w: World, key: Key, t: Turn, c: ServiceSpec, work: Work) returns (moves: seq<Move>, w': World)
    requires Good(t) && key in w.objects && work.svc == w.objects[key] && work.key == key && work.svc.status.dataPath.Some?
    requires work.svc.status.observedGeneration < work.svc.generation
    requires PassOf(w, key) == RecordingUpdate(Looked(work, AllSeen(work.order)), t.now)
    ensures AllSteps(moves, key, t)
    ensures w' == Run(site, w, [Edit(key, c)] + moves) && ReRecorded(site, w', key, c, work) && NoCalls(w.log, w'.log)
    ensures w'.objects[key] == w.objects[key].(spec := c, generation := w.objects[key].generation + 1, status := w'.objects[key].status)
  {
    hide Run;
    var w1 := Apply(site, w, Edit(key, c));
    moves := DriveRefreshed(site, w1, key, t, Looked(work, AllSeen(work.order)));
    RunCons(site, w, Edit(key, c), moves);
    w' := Run(site, w1, moves);
  }

  // ---- a lost drift note ----------------------------------------------------------------------

  /** The first node's checks fail while the pin is the plan's own. */
  function Failing(t: Turn, spine: string): Turn {
    t.(verify := CheckFails, path := Rides(spine))
  }

  /** The note's write never lands. */
  function Losing(t: Turn): Turn {
    t.(api := Failed(false))
  }

  lemma NeutralEditStarts(site: Site, w: World, key: Key, b: ServiceSpec, t: Turn)
    requires RenderOk(site) && Good(t) && key in w.objects && Settled(site, key, w.objects[key]) && PassOf(w, key).Idle?
    requires IsRender(site, b, w.objects[key].status.allocations.value, w.objects[key].status.configHashes)
    ensures var w1 := Apply(site, w, Edit(key, b)); var work := OwnWork(site, key, Edited(w.objects[key], b));
      && work.order != [] && work.hashes == work.svc.status.configHashes
      && Apply(site, w1, PassStep(key, t)) == At(w1, key, Verifying(work, work.order, [], PlainVerify))
  {
    EditReads(site, w, key, b, t);
    NeutralPlan(site, key, Edited(w.objects[key], b), t.now);
  }

  lemma NeutralPlan(site: Site, key: Key, obj: Service, now: int)
    requires RenderOk(site) && obj.status.allocations.Some? && obj.status.appliedSpec.Some?
    requires IsRender(site, obj.spec, obj.status.allocations.value, obj.status.configHashes)
    ensures var work := OwnWork(site, key, obj);
      work.order != [] && GoPlan(site, key, obj, work.alloc, now) == Verifying(work, work.order, [], PlainVerify)
  {
    var plan := site.render(obj.spec, obj.status.allocations.value).value;
    var n :| n in plan.nodes;
    assert n in PlanHashes(site, plan) && n in PlanOrder(plan);
    assert HashesEqual(obj.status.configHashes, PlanHashes(site, plan));
  }

  /** What the failed look leaves of the work. */
  function FailedLook(work: Work): Work
    requires work.order != []
  {
    Looked(work, [NodeStatus(work.order[0], false)])
  }

  /** A failed check over an unchanged plan, to the drift note. */
  lemma DriveToNote(site: Site, w: World, key: Key, t: Turn, work: Work) returns (moves: seq<Move>, active: string)
    requires work.order != [] && work.sameRender && PassOf(w, key) == Verifying(work, work.order, [], PlainVerify)
    ensures active == SpineSeen(site, work, work.svc.spec.preferredSpine)
    ensures AllSteps(moves, key, Failing(t, work.svc.spec.preferredSpine))
    ensures var w' := Run(site, w, moves); SameStore(w, w') && w'.log == w.log && PassOf(w', key) == NotingDrift(FailedLook(work), active)
  {
    var spine := work.svc.spec.preferredSpine;
    var f, looked := Failing(t, spine), FailedLook(work);
    var s := PassStep(key, f);
    active := SpineSeen(site, work, spine);
    var w1 := StepVerifying(site, w, key, work, work.order, [], PlainVerify, f);
    assert Step(site, w, key, f) == w1;
    assert [] + [NodeStatus(work.order[0], false)] == [NodeStatus(work.order[0], false)];
    RunOne(site, w, s);
    if site.steerable(work.svc.spec, work.order) {
      assert PassOf(w1, key) == Observing(looked, Some(CheckKind));
      assert Step(site, w1, key, f) == StepObserving(site, w1, key, looked, Some(CheckKind), f);
      RunCons(site, w, s, [s]);
      RunOne(site, w1, s);
      moves := [s] + [s];
    } else {
      moves := [s];
    }
  }

  /** The work that goes on with the note nobody has stored. */
  function Noted(work: Work, now: int): Work {
    work.(svc := work.svc.(status := SetRefusal(work.svc.status, work.svc.generation, CheckKind, now)))
  }

  /** The note is lost, the repair goes through, and the pass is about to record. */
  lemma DriveRepair(site: Site, w: World, key: Key, t: Turn, work: Work, active: string) returns (moves: seq<Move>)
    requires Good(t) && PassOf(w, key) == NotingDrift(work, active) && work.svc.status.dataPath.Some?
    ensures forall m :: m in moves ==> m == PassStep(key, t) || m == PassStep(key, Losing(t))
    ensures var w' := Run(site, w, moves); var work' := Looked(Noted(work, t.now), AllSeen(work.order));
      SameStore(w, w') && PassOf(w', key) == GoReady(site, work', active, t.now)
  {
    NoteIsLost(site, w, key, t, work, active);
    var w1 := At(w, key, GoApply(site, Noted(work, t.now), work.plan, work.order, DriftApply(active), t.now));
    var rest := DriveReapply(site, w1, key, t, Noted(work, t.now), active);
    moves := [PassStep(key, Losing(t))] + rest;
    RunCons(site, w, PassStep(key, Losing(t)), rest);
  }

  lemma NoteIsLost(site: Site, w: World, key: Key, t: Turn, work: Work, active: string)
    requires PassOf(w, key) == NotingDrift(work, active)
    ensures Apply(site, w, PassStep(key, Losing(t)))
         == At(w, key, GoApply(site, Noted(work, t.now), work.plan, work.order, DriftApply(active), t.now))
  {
  }

  lemma DriveReapply(site: Site, w: World, key: Key, t: Turn, work: Work, active: string) returns (moves: seq<Move>)
    requires Good(t) && PassOf(w, key) == GoApply(site, work, work.plan, work.order, DriftApply(active), t.now)
    ensures AllSteps(moves, key, t)
    ensures var w' := Run(site, w, moves);
      && SameStore(w, w') && w'.log == w.log + ApplyLog(key, work.plan, work.order)
      && PassOf(w', key) == GoReady(site, Looked(work, AllSeen(work.order)), active, t.now)
  {
    var first := DriveApply(site, w, key, t, work, work.plan, work.order, DriftApply(active));
    var second := DriveVerify(site, Run(site, w, first), key, t, work, work.order, [], DriftVerify(active));
    assert [] + AllSeen(work.order) == AllSeen(work.order);
    RunConcat(site, w, first, second);
    moves := first + second;
  }

  /** At every site, over every settled service: an edit that leaves every render as
      it is, a failed check, a drift note that never lands, a repair. The pass ends
      ready, and its object is not settled. */
  lemma LostNoteLeavesStale(site: Site, w: World, key: Key, b: ServiceSpec, t: Turn) returns (moves: seq<Move>, w': World)
    requires SiteOk(site) && RenderOk(site) && Inv(site, w) && Good(t)
    requires key in w.objects && Settled(site, key, w.objects[key]) && PassOf(w, key).Idle?
    requires IsRender(site, b, w.objects[key].status.allocations.value, w.objects[key].status.configHashes)
    ensures forall m :: m in moves ==> m == Edit(key, b) || NoteMove(m, key, t, b.preferredSpine)
    ensures w' == Run(site, w, moves) && ReadyButStale(site, w', key)
  {
    var w2, work := NeutralRun(site, w, key, b, t);
    hide Run, Settled, Inv, ReadyButStale, Behind, IsRender, NoteMove, Good;
    var first := [Edit(key, b), PassStep(key, t)];
    var rest;
    rest, w' := LoseNote(site, w2, key, t, work);
    RunConcat(site, w, first, rest);
    moves := first + rest;
    NoteMoves(rest, key, t, b);
  }

  lemma NoteMoves(rest: seq<Move>, key: Key, t: Turn, b: ServiceSpec)
    requires forall m :: m in rest ==> NoteMove(m, key, t, b.preferredSpine)
    ensures forall m :: m in [Edit(key, b), PassStep(key, t)] + rest ==> m == Edit(key, b) || NoteMove(m, key, t, b.preferredSpine)
  {
  }

  /** Only the pass moves, under one of three answers. */
  predicate NoteMove(m: Move, key: Key, t: Turn, spine: string) {
    m == PassStep(key, t) || m == PassStep(key, Failing(t, spine)) || m == PassStep(key, Losing(t))
  }

  lemma NeutralRun(site: Site, w: World, key: Key, b: ServiceSpec, t: Turn) returns (w2: World, work: Work)
    requires SiteOk(site) && RenderOk(site) && Inv(site, w) && Good(t)
    requires key in w.objects && Settled(site, key, w.objects[key]) && PassOf(w, key).Idle?
    requires IsRender(site, b, w.objects[key].status.allocations.value, w.objects[key].status.configHashes)
    ensures w2 == Run(site, w, [Edit(key, b), PassStep(key, t)]) && Behind(site, w2, key, work) && work.svc.spec == b
    ensures work.order != [] && work.sameRender && PassOf(w2, key) == Verifying(work, work.order, [], PlainVerify)
    ensures work.svc == w2.objects[key]
  {
    work := OwnWork(site, key, Edited(w.objects[key], b));
    hide Run, Inv;
    w2 := Run(site, w, [Edit(key, b), PassStep(key, t)]);
    NeutralEditStarts(site, w, key, b, t);
    InvRun(site, w, [Edit(key, b), PassStep(key, t)]);
    assert [Edit(key, b)] + [PassStep(key, t)] == [Edit(key, b), PassStep(key, t)];
    RunCons(site, w, Edit(key, b), [PassStep(key, t)]);
    RunOne(site, Apply(site, w, Edit(key, b)), PassStep(key, t));
    NeutralBehind(site, w, w2, key, b);
  }

  lemma NeutralBehind(site: Site, w: World, w2: World, key: Key, b: ServiceSpec)
    requires Inv(site, w2) && key in w.objects && Settled(site, key, w.objects[key])
    requires IsRender(site, b, w.objects[key].status.allocations.value, w.objects[key].status.configHashes)
    requires key in w2.objects && w2.objects[key] == Edited(w.objects[key], b)
    ensures Behind(site, w2, key, OwnWork(site, key, Edited(w.objects[key], b)))
  {
    var work := OwnWork(site, key, Edited(w.objects[key], b));
    assert PlanHashes(site, work.plan).Keys == work.plan.nodes.Keys;
  }

  /** Ready, and not silent. */
  ghost predicate ReadyButStale(site: Site, w: World, key: Key) {
    && Inv(site, w) && key in w.objects && PassOf(w, key).Idle? && IsReady(w.objects[key].status)
    && Ripe(site, key, w.objects[key]) && !Settled(site, key, w.objects[key]) && !AlwaysSilent(site, w, key)
  }

  /** A service whose stored generation is behind, and work over it that fits. */
  ghost predicate Behind(site: Site, w: World, key: Key, work: Work) {
    && Inv(site, w) && key in w.objects && !w.objects[key].deleting
    && work.key == key && Matches(site, work) && Ordered(work) && Unedited(work, w.objects[key])
    && work.svc.status.dataPath.Some? && w.objects[key].status.observedGeneration < w.objects[key].generation
  }

  lemma LoseNote(site: Site, w: World, key: Key, t: Turn, work: Work) returns (moves: seq<Move>, w': World)
    requires SiteOk(site) && RenderOk(site) && Good(t) && Behind(site, w, key, work)
    requires work.order != [] && work.sameRender && PassOf(w, key) == Verifying(work, work.order, [], PlainVerify)
    ensures forall m :: m in moves ==> NoteMove(m, key, t, work.svc.spec.preferredSpine)
    ensures w' == Run(site, w, moves) && ReadyButStale(site, w', key)
  {
    var first, active := DriveToNote(site, w, key, t, work);
    InvRun(site, w, first);
    hide Run, Inv, ReadyButStale, Matches, Ordered;
    var rest;
    rest, w' := LoseAndRecord(site, Run(site, w, first), key, t, FailedLook(work), active);
    RunConcat(site, w, first, rest);
    moves := first + rest;
  }

  lemma LoseAndRecord(site: Site, w: World, key: Key, t: Turn, work: Work, active: string) returns (moves: seq<Move>, w': World)
    requires SiteOk(site) && RenderOk(site) && Good(t) && Behind(site, w, key, work)
    requires PassOf(w, key) == NotingDrift(work, active) && ActiveOk(site, work, active)
    ensures forall m :: m in moves ==> NoteMove(m, key, t, work.svc.spec.preferredSpine)
    ensures w' == Run(site, w, moves) && ReadyButStale(site, w', key)
  {
    BehindIs(site, w, key, work);
    hide *;
    var rest := DriveRepair(site, w, key, t, work, active);
    var w2 := Run(site, w, rest);
    InvRun(site, w, rest);
    BehindStays(site, w, w2, key, work);
    w' := Apply(site, w2, PassStep(key, t));
    StaleWrite(site, w2, key, t, work, active);
    moves := rest + [PassStep(key, t)];
    RunConcat(site, w, rest, [PassStep(key, t)]);
    RunOne(site, w2, PassStep(key, t));
    LastNoteMove(rest, key, t, work.svc.spec.preferredSpine);
  }

  lemma BehindIs(site: Site, w: World, key: Key, work: Work)
    requires Behind(site, w, key, work)
    ensures Inv(site, w) && work.svc.status.dataPath.Some?
  {
  }

  lemma LastNoteMove(moves: seq<Move>, key: Key, t: Turn, spine: string)
    requires forall m :: m in moves ==> m == PassStep(key, t) || m == PassStep(key, Losing(t))
    ensures forall m :: m in moves + [PassStep(key, t)] ==> NoteMove(m, key, t, spine)
  {
  }

  lemma BehindStays(site: Site, w: World, w': World, key: Key, work: Work)
    requires Behind(site, w, key, work) && SameStore(w, w') && Inv(site, w')
    ensures Behind(site, w', key, work)
  {
  }

  /** The repaired pass's record over an object whose note was lost. */
  lemma StaleWrite(site: Site, w: World, key: Key, t: Turn, work: Work, active: string)
    requires SiteOk(site) && RenderOk(site) && Good(t) && Behind(site, w, key, work) && ActiveOk(site, work, active)
    requires PassOf(w, key) == GoReady(site, Looked(Noted(work, t.now), AllSeen(work.order)), active, t.now)
    ensures ReadyButStale(site, Apply(site, w, PassStep(key, t)), key)
  {
    var p := PassOf(w, key);
    assert p.Recording? && p.base.observedGeneration == work.svc.generation;
    assert KeyOk(site, w, key);
    assert Matches(site, p.work) && Ordered(p.work);
    RecordingSettles(site, w, key, t);
    ApplyOk(site, w, PassStep(key, t));
    SilentExactly(site, Step(site, w, key, t), key);
  }
}
