/** What every interleaved run of reconcile passes keeps, service by service. */
module PassInvariant {
  import opened Text
  import opened ServiceObjects
  import opened PassMachine

  function Obj(w: World, key: Key): Option<Service> {
    if key in w.objects then Some(w.objects[key]) else None
  }

  /** The part of the status only the ready stage writes. */
  ghost predicate SameRecord(a: Status, b: Status) {
    && a.allocations == b.allocations
    && a.activePath == b.activePath
    && a.dataPath == b.dataPath
    && a.configHashes == b.configHashes
    && a.appliedSpec == b.appliedSpec
    && a.correlationId == b.correlationId
  }

  /** What the renderer and the path stage guarantee of every site. */
  ghost predicate RenderOk(site: Site) {
    && (forall spec, alloc :: site.render(spec, alloc).Some? ==>
          && site.located(spec)
          && site.render(spec, alloc).value.nodes != map[]
          && forall a :: a in spec.attachments ==> a.node in alloc.prefixes && alloc.prefixes[a.node] != "")
    && (forall spec, order :: site.steerable(spec, order) ==> |order| == 2)
  }

  /** The hashes of some render under these identifiers. */
  ghost predicate Rendered(site: Site, alloc: Allocations, hashes: map<Node, int>) {
    exists spec :: IsRender(site, spec, alloc, hashes)
  }

  predicate IsRender(site: Site, spec: ServiceSpec, alloc: Allocations, hashes: map<Node, int>) {
    var plan := site.render(spec, alloc);
    plan.Some? && hashes == PlanHashes(site, plan.value)
  }

  /** A pass's local conditions are the stored ones, unless its own drift note was
      lost: then they are that note. */
  predicate LocalOk(svc: Service, stored: Status) {
    || (svc.status.conditions == stored.conditions && svc.status.observedGeneration == stored.observedGeneration)
    || (!IsReady(svc.status) && svc.status.observedGeneration == svc.generation)
  }

  /** What the stored status of a service always satisfies. */
  ghost predicate RecordOk(site: Site, key: Key, st: Status) {
    && (st.allocations.Some? <==> st.appliedSpec.Some?)
    && (st.allocations.Some? ==>
          && st.allocations.value.id > 0
          && st.allocations.value.vrf == VrfName(st.allocations.value.id)
          && st.correlationId == site.corr(key)
          && st.dataPath.Some?
          && Rendered(site, st.allocations.value, st.configHashes))
    && (IsReady(st) ==> st.allocations.Some?)
    && st.nodes == []
  }

  /** The recorded service id is held as a Lease. */
  ghost predicate Holds(st: Status, own: set<int>) {
    st.allocations.Some? ==> st.allocations.value.id in own
  }

  ghost predicate IdsOk(site: Site, own: set<int>) {
    && (forall v :: v in own ==> site.firstId <= v <= site.lastId)
    && (forall a, b :: a in own && b in own ==> a == b)
  }

  /** Every node of the order, verified, in that order. */
  ghost predicate AllVerified(seen: seq<NodeStatus>, order: seq<Node>) {
    && |seen| == |order|
    && forall i :: 0 <= i < |seen| ==> seen[i] == NodeStatus(order[i], true)
  }

  ghost predicate VerifiedSoFar(seen: seq<NodeStatus>, todo: seq<Node>, order: seq<Node>) {
    && |seen| + |todo| == |order|
    && todo == order[|seen|..]
    && forall i :: 0 <= i < |seen| ==> seen[i] == NodeStatus(order[i], true)
  }

  /** The steered-failover rule: the pin rides a spine other than the preferred one. */
  ghost predicate Waived(work: Work, active: string) {
    work.skipRepair && active != "" && active != work.svc.spec.preferredSpine
  }

  ghost predicate WorkOk(site: Site, key: Key, stored: Status, own: set<int>, work: Work) {
    && work.key == key
    && SameRecord(work.svc.status, stored)
    && LocalOk(work.svc, stored)
    && Rendered(site, work.alloc, work.hashes)
    && Holds(stored, own)
    && work.alloc.id in own
    && work.alloc.vrf == VrfName(work.alloc.id)
  }

  ghost predicate ApplyModeOk(stored: Status, mode: ApplyMode) {
    match mode
    case FirstApply => stored.allocations.None?
    case UpdateApply(_) => stored.allocations.Some?
    case _ => true
  }

  ghost predicate AfterOk(stored: Status, deleting: bool, after: After) {
    match after
    case ThenRefuse(_) => stored.allocations.None?
    case ThenStrip => deleting
  }

  /** The Verified pair of conditions for a generation. */
  ghost predicate VerifiedAt(st: Status, gen: nat) {
    && st.conditions.ready.Some? && st.conditions.degraded.Some?
    && st.conditions.ready.value == Condition(true, Verified, gen, st.conditions.ready.value.since)
    && st.conditions.degraded.value == Condition(false, Verified, gen, st.conditions.degraded.value.since)
    && st.observedGeneration == gen
  }

  ghost predicate RecordingOk(site: Site, key: Key, stored: Status, work: Work, base: Status, next: Status) {
    && base == work.svc.status
    && VerifiedAt(next, work.svc.generation)
    && next.nodes == base.nodes
    && next.allocations == Some(work.alloc)
    && next.appliedSpec == Some(work.svc.spec)
    && next.configHashes == work.hashes
    && next.correlationId == site.corr(key)
    && next.dataPath.Some?
    && (AllVerified(base.nodes, work.order) || Waived(work, next.activePath))
  }

  /** Where a pass stands, against the stored object and what the service holds. */
  ghost predicate PassOk(site: Site, key: Key, obj: Service, own: set<int>, claims: set<ClaimName>, pass: Pass) {
    match pass
    case Idle => true
    case AddingFinalizer => true
    case Refusing(_, _) => true
    case ClaimingId(svc) => svc.status == obj.status && Holds(obj.status, own)
    case AwaitingId(svc) => svc.status == obj.status && Holds(obj.status, own)
    case ListingLeases(svc) => svc.status == obj.status && Holds(obj.status, own)
    case CreatingLease(svc, value, _) =>
      svc.status == obj.status && own == {} && site.firstId <= value <= site.lastId && Holds(obj.status, own)
    case ReadingLease(svc, value, _) =>
      svc.status == obj.status && own == {} && site.firstId <= value <= site.lastId && Holds(obj.status, own)
    case ClaimingPrefix(svc, id, _, _) => svc.status == obj.status && id in own && Holds(obj.status, own)
    case ListingClaims(svc, after) => AfterOk(obj.status, obj.deleting, after)
    case DeletingClaims(svc, todo, after) => AfterOk(obj.status, obj.deleting, after) && claims == todo
    case ListingOwnLeases(svc, after) => AfterOk(obj.status, obj.deleting, after) && claims == {}
    case DeletingLeases(svc, ids, after) => AfterOk(obj.status, obj.deleting, after) && claims == {} && own == ids
    case Removing(work, _, _) => WorkOk(site, key, obj.status, own, work) && obj.status.allocations.Some?
    case Applying(work, _, _, mode) => WorkOk(site, key, obj.status, own, work) && ApplyModeOk(obj.status, mode)
    case RollingBack(work, _, _, mode) =>
      WorkOk(site, key, obj.status, own, work) && (mode.FirstRoll? ==> obj.status.allocations.None?)
    case Verifying(work, todo, seen, mode) =>
      && WorkOk(site, key, obj.status, own, work)
      && VerifiedSoFar(seen, todo, work.order)
      && (mode.UpdateVerify? ==> obj.status.allocations.Some?)
    case RecordingUpdate(work, _) =>
      && WorkOk(site, key, obj.status, own, work)
      && obj.status.allocations.Some?
      && AllVerified(work.svc.status.nodes, work.order)
    case Observing(work, failed) =>
      WorkOk(site, key, obj.status, own, work) && (failed.None? ==> AllVerified(work.svc.status.nodes, work.order))
    case NotingDrift(work, _) => WorkOk(site, key, obj.status, own, work)
    case Probing(work, active) =>
      && WorkOk(site, key, obj.status, own, work)
      && (AllVerified(work.svc.status.nodes, work.order) || Waived(work, active))
    case Recording(work, base, next) =>
      && WorkOk(site, key, obj.status, own, work)
      && RecordingOk(site, key, obj.status, work, base, next)
    case FinalRollback(_, _, _, _) => obj.deleting
    case NotingFinalizing(_) => true
    case Stripping(_) => obj.deleting && own == {} && claims == {}
  }

  /** One service: its stored object, what it holds, and its pass. */
  ghost predicate CellOk(site: Site, key: Key, obj: Option<Service>, own: set<int>, claims: set<ClaimName>, pass: Pass) {
    && IdsOk(site, own)
    && (obj.Some? ==>
          && RecordOk(site, key, obj.value.status)
          && (!obj.value.deleting ==> Holds(obj.value.status, own))
          && (obj.value.deleting ==> obj.value.finalizer))
    && (own != {} || claims != {} ==> obj.Some? && obj.value.finalizer)
    && (!pass.Idle? && !pass.AddingFinalizer? ==> obj.Some? && obj.value.finalizer)
    && (obj.Some? ==> PassOk(site, key, obj.value, own, claims, pass))
  }

  ghost predicate KeyOk(site: Site, w: World, key: Key) {
    CellOk(site, key, Obj(w, key), OwnLeases(site, w.leases, key), OwnClaims(site, w.claims, key), PassOf(w, key))
  }

  ghost predicate Inv(site: Site, w: World) {
    forall key :: KeyOk(site, w, key)
  }
}
