/** One reconcile pass as a machine over its external calls. Every step is one
    call to the API server or to the executor together with the local work up
    to the next call, so passes of different services, operators and other
    lease holders may interleave between any two calls. The answers are
    adversarial. */
module PassMachine {
  import opened Text
  import opened ServiceObjects

  type Key = string
  type CorrId = string

  /** The site facts a controller is started with, and the two pure functions
      it renders with. `keyOf` inverts the correlation ids: distinct services
      carry distinct, fixed ids. */
  datatype Site = Site(
    corr: Key -> CorrId,
    keyOf: CorrId -> Option<Key>,
    located: ServiceSpec -> bool,
    render: (ServiceSpec, Allocations) -> Option<Plan>,
    steerable: (ServiceSpec, seq<Node>) -> bool,
    hash: seq<Op> -> int,
    firstId: int,
    lastId: int)

  ghost predicate SiteOk(site: Site) {
    && (forall k :: site.keyOf(site.corr(k)) == Some(k))
    && 1 <= site.firstId
  }

  function VrfName(id: int): string {
    "Vrf" + Itoa(id)
  }

  // ---- answers -----------------------------------------------------------------

  /** An API write either succeeds, or errs having landed or not. */
  datatype Api = Done | Failed(landed: bool)
  datatype Exec = Accepted | Rejected | Unreachable | PermanentlyRefused
  datatype VerifyAnswer = Passed | LocatorGone | CheckFails | VerifyErrs
  datatype PathAnswer = Unread | NoLeg | Rides(spine: string)
  datatype ProbeAnswer = ProbePasses | ProbeFails | ProbeErrs

  /** What the outside world answers at one step, and what the clock says. A
      failed claim call may say that its pool is used up. */
  datatype Turn = Turn(
    gate: Option<Kind>,
    api: Api,
    usedUp: bool,
    served: bool,
    exec: Exec,
    verify: VerifyAnswer,
    path: PathAnswer,
    probe: ProbeAnswer,
    pick: int,
    claim: ClaimName,
    address: string,
    now: int)

  // ---- the shared store -----------------------------------------------------------

  datatype ClaimName = IdClaim | PrefixClaim(node: Node, port: string)
  datatype Claim = Claim(corr: CorrId, name: ClaimName)

  datatype Event =
    | ApplyCall(key: Key, node: Node, ops: seq<Op>, answer: Exec)
    | ClaimCall(key: Key)
    | StatusWrite(key: Key)
    | ObjectWrite(key: Key)

  /** Lease objects are named after their value, so the store is a map from the
      value to the correlation id annotation. */
  datatype World = World(
    objects: map<Key, Service>,
    leases: map<int, CorrId>,
    claims: set<Claim>,
    passes: map<Key, Pass>,
    log: seq<Event>)

  const EmptyWorld := World(map[], map[], {}, map[], [])

  // ---- where a pass stands -----------------------------------------------------------

  /** The local variables of Reconcile once a plan is rendered. */
  datatype Work = Work(
    key: Key,
    svc: Service,
    alloc: Allocations,
    plan: Plan,
    order: seq<Node>,
    hashes: map<Node, int>,
    sameRender: bool,
    skipRepair: bool)

  datatype After = ThenRefuse(kind: Kind) | ThenStrip
  datatype ApplyMode = FirstApply | UpdateApply(prev: Plan) | RestoreApply | DriftApply(active: string)
  datatype RollMode = FirstRoll | UpdateRoll | DriftRoll
  datatype VerifyMode = PlainVerify | UpdateVerify | DriftVerify(active: string)

  datatype Pass =
    | Idle
    | AddingFinalizer
    | Refusing(svc: Service, kind: Kind)
    | ClaimingId(svc: Service)
    | AwaitingId(svc: Service)
    | ListingLeases(svc: Service)
    | CreatingLease(svc: Service, value: int, used: set<int>)
    | ReadingLease(svc: Service, value: int, used: set<int>)
    | ClaimingPrefix(svc: Service, id: int, waiting: seq<Attachment>, prefixes: map<Node, string>)
    | ListingClaims(svc: Service, after: After)
    | DeletingClaims(svc: Service, claims: set<ClaimName>, after: After)
    | ListingOwnLeases(svc: Service, after: After)
    | DeletingLeases(svc: Service, ids: set<int>, after: After)
    | Removing(work: Work, prev: Plan, todo: seq<Node>)
    | Applying(work: Work, plan: Plan, todo: seq<Node>, applyMode: ApplyMode)
    | RollingBack(work: Work, plan: Plan, todo: seq<Node>, rollMode: RollMode)
    | Verifying(work: Work, todo: seq<Node>, seen: seq<NodeStatus>, verifyMode: VerifyMode)
    | RecordingUpdate(work: Work, now: int)
    | Observing(work: Work, failed: Option<Kind>)
    | NotingDrift(work: Work, active: string)
    | Probing(work: Work, active: string)
    | Recording(work: Work, base: Status, next: Status)
    | FinalRollback(svc: Service, plan: Plan, todo: seq<Node>, dirty: set<Node>)
    | NotingFinalizing(svc: Service)
    | Stripping(svc: Service)

  // ---- local work between calls ----------------------------------------------------

  function PlanHashes(site: Site, plan: Plan): map<Node, int> {
    map n | n in plan.nodes :: site.hash(plan.nodes[n].ops)
  }

  predicate HashesEqual(stored: map<Node, int>, computed: map<Node, int>) {
    stored != map[] && forall n :: n in computed ==> n in stored && stored[n] == computed[n]
  }

  /** reuseAllocation: the recorded identifiers still serve this spec. */
  predicate Reusable(site: Site, svc: Service, corr: CorrId) {
    && svc.status.allocations.Some?
    && svc.status.correlationId == corr
    && svc.status.allocations.value.id > 0
    && svc.status.allocations.value.vrf != ""
    && (forall a :: a in svc.spec.attachments ==>
          a.node in svc.status.allocations.value.prefixes && svc.status.allocations.value.prefixes[a.node] != "")
    && site.located(svc.spec)
  }

  /** The nodes whose rendered ops lost an item (diffPlans). */
  predicate LostAnOp(prev: Plan, next: Plan, n: Node) {
    && n in prev.nodes
    && exists op :: op in prev.nodes[n].ops && (n in next.nodes ==> op !in next.nodes[n].ops)
  }

  function RemovalNodes(prev: Plan, next: Plan): seq<Node> {
    SortedKeys(set n | n in prev.nodes && LostAnOp(prev, next, n))
  }

  function WithRollback(plan: Plan, order: seq<Node>): (r: seq<Node>)
    requires forall n :: n in order ==> n in plan.nodes
    ensures forall n :: n in r <==> n in order && plan.nodes[n].rollback != []
  {
    if order == [] then []
    else (if plan.nodes[order[0]].rollback == [] then [] else [order[0]]) + WithRollback(plan, order[1..])
  }

  /** orderedAttachments: stable by node. */
  function OrderedAttachments(atts: seq<Attachment>): seq<Attachment> {
    if atts == [] then [] else InsertByNode(atts[0], OrderedAttachments(atts[1..]))
  }

  function InsertByNode(a: Attachment, sorted: seq<Attachment>): seq<Attachment> {
    if sorted == [] || Le(a.node, sorted[0].node) then [a] + sorted
    else [sorted[0]] + InsertByNode(a, sorted[1..])
  }

  // The stages below return where the pass stops next: at its next external
  // call, or Idle.

  function GoPlan(site: Site, key: Key, svc: Service, alloc: Allocations, now: int): Pass {
    match site.render(svc.spec, alloc)
    case None => Refusing(svc, ApplyKind)
    case Some(plan) =>
      var hashes := PlanHashes(site, plan);
      var sameRender := HashesEqual(svc.status.configHashes, hashes);
      var work := Work(key, svc, alloc, plan, PlanOrder(plan), hashes, sameRender, false);
      if svc.status.appliedSpec.Some? && !sameRender then
        match site.render(svc.status.appliedSpec.value, alloc)
        case None => Refusing(svc, ApplyKind)
        case Some(prev) => GoRemove(site, work, prev, RemovalNodes(prev, plan), now)
      else if !sameRender then GoApply(site, work, plan, work.order, FirstApply, now)
      else GoVerify(site, work, work.order, [], PlainVerify, now)
  }

  function GoRemove(site: Site, work: Work, prev: Plan, todo: seq<Node>, now: int): Pass {
    if todo == [] then GoApply(site, work, work.plan, work.order, UpdateApply(prev), now)
    else Removing(work, prev, todo)
  }

  function GoApply(site: Site, work: Work, plan: Plan, todo: seq<Node>, mode: ApplyMode, now: int): Pass {
    if todo != [] then Applying(work, plan, todo, mode)
    else match mode
      case FirstApply => GoVerify(site, work, work.order, [], PlainVerify, now)
      case UpdateApply(_) => GoVerify(site, work, work.order, [], UpdateVerify, now)
      case RestoreApply => Refusing(work.svc, ApplyKind)
      case DriftApply(active) => GoVerify(site, work, work.order, [], DriftVerify(active), now)
  }

  /** A node failed to apply: roll back, every node. */
  function GoFailedApply(site: Site, work: Work, mode: ApplyMode, now: int): Pass {
    match mode
    case FirstApply => GoRoll(site, work, work.plan, WithRollback(work.plan, PlanOrder(work.plan)), FirstRoll, now)
    case UpdateApply(prev) => GoRoll(site, work, prev, WithRollback(prev, PlanOrder(prev)), UpdateRoll, now)
    case RestoreApply => Refusing(work.svc, ApplyKind)
    case DriftApply(_) => GoRoll(site, work, work.plan, WithRollback(work.plan, PlanOrder(work.plan)), DriftRoll, now)
  }

  function GoRoll(site: Site, work: Work, plan: Plan, todo: seq<Node>, mode: RollMode, now: int): Pass {
    if todo != [] then RollingBack(work, plan, todo, mode)
    else match mode
      case FirstRoll => ListingClaims(work.svc, ThenRefuse(ApplyKind))
      case UpdateRoll => GoApply(site, work, plan, PlanOrder(plan), RestoreApply, now)
      case DriftRoll => Refusing(work.svc, ApplyKind)
  }

  function GoVerify(site: Site, work: Work, todo: seq<Node>, seen: seq<NodeStatus>, mode: VerifyMode, now: int): Pass {
    if todo != [] then Verifying(work, todo, seen, mode)
    else AfterVerify(site, work, seen, None, mode, now)
  }

  function AfterVerify(site: Site, work: Work, seen: seq<NodeStatus>, failed: Option<Kind>, mode: VerifyMode, now: int): Pass {
    var work' := work.(svc := work.svc.(status := work.svc.status.(nodes := seen)));
    match mode
    case PlainVerify =>
      if site.steerable(work'.svc.spec, work'.order) then Observing(work', failed)
      else AfterPath(site, work', failed, "", now)
    case UpdateVerify => if failed.Some? then Refusing(work'.svc, failed.value) else RecordingUpdate(work', now)
    case DriftVerify(active) => if failed.Some? then Refusing(work'.svc, failed.value) else GoReady(site, work', active, now)
  }

  function AfterPath(site: Site, work: Work, failed: Option<Kind>, active: string, now: int): Pass {
    match failed
    case None => GoReady(site, work, active, now)
    case Some(kind) =>
      if work.sameRender && kind == CheckKind then NotingDrift(work, active) else Refusing(work.svc, kind)
  }

  function GoReady(site: Site, work: Work, active: string, now: int): Pass {
    if work.svc.status.dataPath.None? then Probing(work, active)
    else GoRecord(site, work, work.svc.status.dataPath, active, now)
  }

  /** The ready stage: nothing is written when nothing would change. */
  function GoRecord(site: Site, work: Work, dataPath: Option<int>, active: string, now: int): Pass {
    var base := work.svc.status;
    var next := SetReadyOutcome(base.(dataPath := dataPath), work.svc.generation, work.hashes, work.svc.spec,
                                site.corr(work.key), active, work.alloc, now);
    if base == next then Idle else Recording(work, base, next)
  }

  /** The next lease value to try; past the range the pool is exhausted and
      every partial claim is released. */
  function GoCreate(site: Site, svc: Service, value: int, used: set<int>): Pass
    decreases site.lastId - value + 1
  {
    if value > site.lastId then ListingClaims(svc, ThenRefuse(PoolKind))
    else if value in used then GoCreate(site, svc, value + 1, used)
    else CreatingLease(svc, value, used)
  }

  function GoPrefix(site: Site, key: Key, svc: Service, id: int, waiting: seq<Attachment>,
                    prefixes: map<Node, string>, now: int): Pass
  {
    if waiting != [] then ClaimingPrefix(svc, id, waiting, prefixes)
    else GoPlan(site, key, svc, Allocations(id, VrfName(id), prefixes), now)
  }

  /** transientOrRefusal: a used-up pool is refused, with the claims made so far
      kept; any other error ends the pass. */
  function GoUnclaimed(svc: Service, usedUp: bool): Pass {
    if usedUp then Refusing(svc, PoolKind) else Idle
  }

  /** After releaseAll: an error is only reported when the object is being finalized. */
  function GoReleased(svc: Service, after: After, ok: bool): Pass {
    match after
    case ThenRefuse(kind) => Refusing(svc, kind)
    case ThenStrip => if ok then Stripping(svc) else NotingFinalizing(svc)
  }

  function GoFinalRollback(svc: Service, plan: Plan, todo: seq<Node>, dirty: set<Node>): Pass {
    if todo != [] then FinalRollback(svc, plan, todo, dirty)
    else if dirty != {} then NotingFinalizing(svc)
    else ListingClaims(svc, ThenStrip)
  }

  /** finalizeAllocation and the plan rendered from it. */
  function FinalPlan(site: Site, svc: Service): Option<Plan> {
    if svc.status.allocations.Some? && svc.status.allocations.value.id > 0 && site.located(svc.spec)
    then site.render(svc.spec, svc.status.allocations.value)
    else None
  }

  // ---- steps -----------------------------------------------------------------------

  function PassOf(w: World, key: Key): Pass {
    if key in w.passes then w.passes[key] else Idle
  }

  function At(w: World, key: Key, pass: Pass): World {
    w.(passes := w.passes[key := pass])
  }

  function Log(w: World, e: Event): World {
    w.(log := w.log + [e])
  }

  function OwnLeases(site: Site, leases: map<int, CorrId>, key: Key): set<int> {
    set v | v in leases && leases[v] == site.corr(key)
  }

  function OwnClaims(site: Site, claims: set<Claim>, key: Key): set<ClaimName> {
    set c | c in claims && c.corr == site.corr(key) :: c.name
  }

  /** Status().Patch: the write, when the object is still there. */
  function WriteStatus(w: World, key: Key, base: Status, next: Status, api: Api): World {
    if key in w.objects && (api.Done? || api.landed) then
      var obj := w.objects[key];
      Log(w.(objects := w.objects[key := obj.(status := MergePatch(obj.status, base, next))]), StatusWrite(key))
    else w
  }

  predicate Written(w: World, key: Key, api: Api) {
    key in w.objects && api.Done?
  }

  function Start(site: Site, w: World, key: Key, t: Turn): World {
    if key !in w.objects then w
    else
      var svc := w.objects[key];
      if svc.deleting then
        if !svc.finalizer then w
        else match FinalPlan(site, svc)
          case None => At(w, key, GoFinalRollback(svc, Plan(map[]), [], {}))
          case Some(plan) => At(w, key, GoFinalRollback(svc, plan, WithRollback(plan, PlanOrder(plan)), {}))
      else if !svc.finalizer then At(w, key, AddingFinalizer)
      else if t.gate.Some? then At(w, key, Refusing(svc, t.gate.value))
      else if Reusable(site, svc, site.corr(key)) then At(w, key, GoPlan(site, key, svc, svc.status.allocations.value, t.now))
      else if !site.located(svc.spec) then At(w, key, Refusing(svc, LocatorKind))
      else At(w, key, ClaimingId(svc))
  }

  function StepAddingFinalizer(w: World, key: Key, t: Turn): World {
    if key in w.objects && (t.api.Done? || t.api.landed) then
      At(Log(w.(objects := w.objects[key := w.objects[key].(finalizer := true)]), ObjectWrite(key)), key, Idle)
    else At(w, key, Idle)
  }

  function StepRefusing(w: World, key: Key, svc: Service, kind: Kind, t: Turn): World {
    var next := SetRefusal(svc.status, svc.generation, kind, t.now);
    At(WriteStatus(w, key, svc.status, next, t.api), key, Idle)
  }

  function StepClaimingId(site: Site, w: World, key: Key, svc: Service, t: Turn): World {
    var w1 := Log(w, ClaimCall(key));
    var w2 := if (t.api.Done? && t.served) || (t.api.Failed? && t.api.landed)
              then w1.(claims := w1.claims + {Claim(site.corr(key), IdClaim)}) else w1;
    if t.api.Failed? then At(w2, key, GoUnclaimed(svc, t.usedUp))
    else if t.served then At(w2, key, AwaitingId(svc))
    else At(w2, key, ListingLeases(svc))
  }

  function StepListingLeases(site: Site, w: World, key: Key, svc: Service, t: Turn): World {
    var own := OwnLeases(site, w.leases, key);
    var w1 := Log(w, ClaimCall(key));
    if t.api.Failed? then At(w1, key, Idle)
    else if own == {} then At(w1, key, GoCreate(site, svc, site.firstId, w.leases.Keys))
    else if t.pick in own then At(w1, key, GoPrefix(site, key, svc, t.pick, OrderedAttachments(svc.spec.attachments), map[], t.now))
    else w
  }

  function StepCreatingLease(site: Site, w: World, key: Key, svc: Service, value: int, used: set<int>, t: Turn): World {
    var w1 := Log(w, ClaimCall(key));
    var w2 := if value !in w.leases && (t.api.Done? || t.api.landed)
              then w1.(leases := w1.leases[value := site.corr(key)]) else w1;
    if t.api.Failed? then At(w2, key, Idle)
    else if value in w.leases then At(w2, key, ReadingLease(svc, value, used))
    else At(w2, key, GoPrefix(site, key, svc, value, OrderedAttachments(svc.spec.attachments), map[], t.now))
  }

  function StepReadingLease(site: Site, w: World, key: Key, svc: Service, value: int, used: set<int>, t: Turn): World {
    var w1 := Log(w, ClaimCall(key));
    if t.api.Done? && value in w.leases && w.leases[value] == site.corr(key) then
      At(w1, key, GoPrefix(site, key, svc, value, OrderedAttachments(svc.spec.attachments), map[], t.now))
    else At(w1, key, GoCreate(site, svc, value + 1, used))
  }

  function StepClaimingPrefix(site: Site, w: World, key: Key, svc: Service, id: int, waiting: seq<Attachment>,
                              prefixes: map<Node, string>, t: Turn): World
    requires waiting != []
  {
    var w1 := Log(w, ClaimCall(key));
    var w2 := if t.api.Done? || t.api.landed
              then w1.(claims := w1.claims + {Claim(site.corr(key), PrefixClaim(waiting[0].node, waiting[0].port))}) else w1;
    if t.api.Failed? then At(w2, key, GoUnclaimed(svc, t.usedUp))
    else At(w2, key, GoPrefix(site, key, svc, id, waiting[1..], prefixes[waiting[0].node := t.address], t.now))
  }

  function StepDeletingClaims(site: Site, w: World, key: Key, svc: Service, todo: set<ClaimName>, after: After, t: Turn): World {
    if todo == {} then At(w, key, ListingOwnLeases(svc, after))
    else if t.claim !in todo then w
    else
      var w1 := Log(w, ClaimCall(key));
      var w2 := if t.api.Done? || t.api.landed then w1.(claims := w1.claims - {Claim(site.corr(key), t.claim)}) else w1;
      if t.api.Done? then At(w2, key, DeletingClaims(svc, todo - {t.claim}, after))
      else At(w2, key, GoReleased(svc, after, false))
  }

  /** Delete is by name: it would take whatever lease carries the value. */
  function StepDeletingLeases(w: World, key: Key, svc: Service, todo: set<int>, after: After, t: Turn): World {
    if todo == {} then At(w, key, GoReleased(svc, after, true))
    else if t.pick !in todo then w
    else
      var w1 := Log(w, ClaimCall(key));
      var w2 := if t.api.Done? || t.api.landed then w1.(leases := w1.leases - {t.pick}) else w1;
      if t.api.Done? then At(w2, key, DeletingLeases(svc, todo - {t.pick}, after))
      else At(w2, key, GoReleased(svc, after, false))
  }

  /** Only a transport error stops the removal; a rejected rollback is not looked at. */
  function StepRemoving(site: Site, w: World, key: Key, work: Work, prev: Plan, todo: seq<Node>, t: Turn): World
    requires todo != []
  {
    var ops := RollbackOn(prev, todo[0]);
    var w1 := Log(w, ApplyCall(key, todo[0], ops, t.exec));
    if t.exec.Accepted? || t.exec.Rejected? then At(w1, key, GoRemove(site, work, prev, todo[1..], t.now))
    else At(w1, key, Refusing(work.svc, ApplyKind))
  }

  function StepApplying(site: Site, w: World, key: Key, work: Work, plan: Plan, todo: seq<Node>, mode: ApplyMode, t: Turn): World
    requires todo != []
  {
    var ops := OpsOn(plan, todo[0]);
    var w1 := Log(w, ApplyCall(key, todo[0], ops, t.exec));
    if t.exec.Accepted? then At(w1, key, GoApply(site, work, plan, todo[1..], mode, t.now))
    else At(w1, key, GoFailedApply(site, work, mode, t.now))
  }

  function StepRollingBack(site: Site, w: World, key: Key, work: Work, plan: Plan, todo: seq<Node>, mode: RollMode, t: Turn): World
    requires todo != []
  {
    var ops := RollbackOn(plan, todo[0]);
    At(Log(w, ApplyCall(key, todo[0], ops, t.exec)), key, GoRoll(site, work, plan, todo[1..], mode, t.now))
  }

  function StepVerifying(site: Site, w: World, key: Key, work: Work, todo: seq<Node>, seen: seq<NodeStatus>,
                         mode: VerifyMode, t: Turn): World
    requires todo != []
  {
    var seen' := seen + [NodeStatus(todo[0], t.verify.Passed?)];
    match t.verify
    case Passed => At(w, key, GoVerify(site, work, todo[1..], seen', mode, t.now))
    case LocatorGone => At(w, key, AfterVerify(site, work, seen', Some(LocatorKind), mode, t.now))
    case _ => At(w, key, AfterVerify(site, work, seen', Some(CheckKind), mode, t.now))
  }

  /** The status write inside applyUpdate. Its response replaces the local
      object, spec included. */
  function StepRecordingUpdate(site: Site, w: World, key: Key, work: Work, now: int, t: Turn): World {
    var base := work.svc.status;
    var next := SetReadyOutcome(base, work.svc.generation, work.hashes, work.svc.spec, site.corr(key),
                                base.activePath, work.alloc, now);
    var w1 := WriteStatus(w, key, base, next, t.api);
    if Written(w, key, t.api) then
      At(w1, key, GoVerify(site, work.(svc := w1.objects[key]), work.order, [], PlainVerify, t.now))
    else At(w1, key, Refusing(work.svc.(status := next), ApplyKind))
  }

  function StepObserving(site: Site, w: World, key: Key, work: Work, failed: Option<Kind>, t: Turn): World {
    match t.path
    case Unread => At(w, key, Idle)
    case NoLeg => At(w, key, Refusing(work.svc, PathKind))
    case Rides(spine) =>
      if failed == Some(CheckKind) && spine != "" && spine != work.svc.spec.preferredSpine
      then At(w, key, AfterPath(site, work.(skipRepair := true), None, spine, t.now))
      else At(w, key, AfterPath(site, work, failed, spine, t.now))
  }

  /** patchDriftObserved is best effort; whether or not it landed, the local
      status carries the conditions and the repair goes on. */
  function StepNotingDrift(site: Site, w: World, key: Key, work: Work, active: string, t: Turn): World {
    var base := work.svc.status;
    var next := SetRefusal(base, work.svc.generation, CheckKind, t.now);
    var w1 := WriteStatus(w, key, base, next, t.api);
    var svc := if Written(w, key, t.api) then w1.objects[key] else work.svc.(status := next);
    At(w1, key, GoApply(site, work.(svc := svc), work.plan, work.order, DriftApply(active), t.now))
  }

  function StepProbing(site: Site, w: World, key: Key, work: Work, active: string, t: Turn): World {
    match t.probe
    case ProbeErrs => At(w, key, Idle)
    case ProbeFails => At(w, key, Refusing(work.svc, DataPathKind))
    case ProbePasses => At(w, key, GoRecord(site, work, Some(t.now), active, t.now))
  }

  /** Rollback at delete: an answer, whatever it says, counts as clean; so does
      a permanent refusal. Only a transient error leaves the node dirty. */
  function StepFinalRollback(w: World, key: Key, svc: Service, plan: Plan, todo: seq<Node>, dirty: set<Node>, t: Turn): World
    requires todo != []
  {
    var ops := RollbackOn(plan, todo[0]);
    var dirty' := if t.exec.Unreachable? then dirty + {todo[0]} else dirty;
    At(Log(w, ApplyCall(key, todo[0], ops, t.exec)), key, GoFinalRollback(svc, plan, todo[1..], dirty'))
  }

  /** Removing the finalizer of a deleted object lets it go. */
  function StepStripping(w: World, key: Key, t: Turn): World {
    if key in w.objects && (t.api.Done? || t.api.landed) then
      At(Log(w.(objects := w.objects - {key}), ObjectWrite(key)), key, Idle)
    else At(w, key, Idle)
  }

  /** One step of the pass of one service. */
  function Step(site: Site, w: World, key: Key, t: Turn): World {
    match PassOf(w, key)
    case Idle => Start(site, w, key, t)
    case AddingFinalizer => StepAddingFinalizer(w, key, t)
    case Refusing(svc, kind) => StepRefusing(w, key, svc, kind, t)
    case ClaimingId(svc) => StepClaimingId(site, w, key, svc, t)
    case AwaitingId(svc) => At(w, key, if t.api.Failed? then GoUnclaimed(svc, t.usedUp) else ListingLeases(svc))
    case ListingLeases(svc) => StepListingLeases(site, w, key, svc, t)
    case CreatingLease(svc, value, used) => StepCreatingLease(site, w, key, svc, value, used, t)
    case ReadingLease(svc, value, used) => StepReadingLease(site, w, key, svc, value, used, t)
    case ClaimingPrefix(svc, id, waiting, prefixes) =>
      if waiting == [] then w else StepClaimingPrefix(site, w, key, svc, id, waiting, prefixes, t)
    case ListingClaims(svc, after) =>
      if t.api.Failed? then At(w, key, GoReleased(svc, after, false))
      else At(w, key, DeletingClaims(svc, OwnClaims(site, w.claims, key), after))
    case DeletingClaims(svc, todo, after) => StepDeletingClaims(site, w, key, svc, todo, after, t)
    case ListingOwnLeases(svc, after) =>
      if t.api.Failed? then At(w, key, GoReleased(svc, after, false))
      else At(w, key, DeletingLeases(svc, OwnLeases(site, w.leases, key), after))
    case DeletingLeases(svc, todo, after) => StepDeletingLeases(w, key, svc, todo, after, t)
    case Removing(work, prev, todo) => if todo == [] then w else StepRemoving(site, w, key, work, prev, todo, t)
    case Applying(work, plan, todo, mode) => if todo == [] then w else StepApplying(site, w, key, work, plan, todo, mode, t)
    case RollingBack(work, plan, todo, mode) => if todo == [] then w else StepRollingBack(site, w, key, work, plan, todo, mode, t)
    case Verifying(work, todo, seen, mode) => if todo == [] then w else StepVerifying(site, w, key, work, todo, seen, mode, t)
    case RecordingUpdate(work, now) => StepRecordingUpdate(site, w, key, work, now, t)
    case Observing(work, failed) => StepObserving(site, w, key, work, failed, t)
    case NotingDrift(work, active) => StepNotingDrift(site, w, key, work, active, t)
    case Probing(work, active) => StepProbing(site, w, key, work, active, t)
    case Recording(work, base, next) => At(WriteStatus(w, key, base, next, t.api), key, Idle)
    case FinalRollback(svc, plan, todo, dirty) => if todo == [] then w else StepFinalRollback(w, key, svc, plan, todo, dirty, t)
    case NotingFinalizing(svc) =>
      At(WriteStatus(w, key, svc.status, SetFinalizing(svc.status, svc.generation, t.now), t.api), key, Idle)
    case Stripping(_) => StepStripping(w, key, t)
  }

  // ---- runs ------------------------------------------------------------------------

  /** Everything that can happen: a step of some pass, an operator, or another
      holder of the lease pool. */
  datatype Move =
    | PassStep(key: Key, turn: Turn)
    | Create(key: Key, spec: ServiceSpec)
    | Edit(key: Key, spec: ServiceSpec)
    | Delete(key: Key)
    | ForeignLease(value: int, holder: CorrId)
    | ForeignRelease(value: int)

  function Apply(site: Site, w: World, m: Move): World {
    match m
    case PassStep(key, turn) => Step(site, w, key, turn)
    case Create(key, spec) =>
      if key in w.objects then w
      else w.(objects := w.objects[key := Service(spec, 1, false, false, EmptyStatus)])
    case Edit(key, spec) =>
      if key !in w.objects then w
      else w.(objects := w.objects[key := w.objects[key].(spec := spec, generation := w.objects[key].generation + 1)])
    case Delete(key) =>
      if key !in w.objects then w
      else if w.objects[key].finalizer then w.(objects := w.objects[key := w.objects[key].(deleting := true)])
      else w.(objects := w.objects - {key})
    case ForeignLease(value, holder) =>
      if value in w.leases || site.keyOf(holder).Some? then w else w.(leases := w.leases[value := holder])
    case ForeignRelease(value) =>
      if value in w.leases && site.keyOf(w.leases[value]).None? then w.(leases := w.leases - {value}) else w
  }

  /** The world after a run. */
  function Run(site: Site, w: World, moves: seq<Move>): World
    decreases |moves|
  {
    if moves == [] then w else Apply(site, Run(site, w, moves[..|moves| - 1]), moves[|moves| - 1])
  }
}
