/** The SRv6Service object, what the controller records in its status, and the
    per-node work order a render produces. */
module ServiceObjects {
  import opened Text

  type Node = string

  datatype Attachment = Attachment(node: Node, port: string, gateways: seq<string>)

  datatype ServiceSpec = ServiceSpec(
    tenant: string,
    construct: string,
    signalling: string,
    attachments: seq<Attachment>,
    preferredSpine: string,
    alternateSpine: string)

  /** status.allocations: the claimed service id, its VRF name, and the claimed
      client prefix of each attachment node. */
  datatype Allocations = Allocations(id: int, vrf: string, prefixes: map<Node, string>)

  // ---- device work ---------------------------------------------------------

  /** CONFIG_DB rows: those of a service, and the bootstrap-owned locators and SIDs. */
  datatype Row =
    | VrfRow(vrf: string)
    | InterfaceRow(port: string)
    | AddressRow(port: string, addr: string)
    | LocatorRow(name: string)
    | SidRow(locator: string, sid: string)

  datatype PatchStep =
    | AddRow(row: Row, fields: map<string, string>)
    | RemoveRow(row: Row)
    | RemoveVrfTable

  datatype KernelCmd =
    | ReplaceDecap(sid: string, vrf: string)
    | ReplaceEncap(vrf: string, prefix: string, segment: string)
    | ReplaceLocatorPin(locator: string, via: string)
    | ReplacePreferredPin(dst: string, via: string)
    | DeleteRoute(dst: string)
    | DeleteVrfRoute(vrf: string, prefix: string)
    | FlushPort(port: string)

  datatype ClientCmd =
    | FlushClient
    | AddClientAddress(addr: string)
    | DefaultVia(gateway: string)

  datatype Op =
    | Gcu(patch: seq<PatchStep>)
    | Shell(cmds: seq<KernelCmd>)
    | OnClient(attachment: string, clientCmds: seq<ClientCmd>)

  datatype Check =
    | RowExists(row: Row)
    | PortAddress(port: string, addr: string)
    | PortMaster(port: string, vrf: string)
    | VrfDeviceUp(vrf: string)
    | DecapShown(sid: string)
    | EncapShown(vrf: string, segment: string)
    | LocatorPinShown(locator: string, via: string)
    | PreferredPinShown(dst: string, via: string)
    | ClientAddress(attachment: string, addr: string)

  datatype NodePlan = NodePlan(ops: seq<Op>, checks: seq<Check>, rollback: seq<Op>)

  datatype Plan = Plan(nodes: map<Node, NodePlan>)

  function OpsOn(plan: Plan, n: Node): seq<Op> {
    if n in plan.nodes then plan.nodes[n].ops else []
  }

  function RollbackOn(plan: Plan, n: Node): seq<Op> {
    if n in plan.nodes then plan.nodes[n].rollback else []
  }

  /** PlanOrder: the node names sorted, which is the apply, verify and rollback order. */
  function PlanOrder(plan: Plan): (order: seq<Node>)
    ensures forall n :: n in order <==> n in plan.nodes
    ensures Distinct(order) && Sorted(order)
  {
    SortedKeys(plan.nodes.Keys)
  }

  // ---- status ----------------------------------------------------------------

  /** The pipeline stage a refusal comes from; the condition reason follows it. */
  datatype Kind =
    | SiteKind | PortKind | CapabilityKind | VariantKind | PoolKind
    | ApplyKind | CheckKind | LocatorKind | DataPathKind | PathKind

  datatype Reason = Verified | Refused(kind: Kind) | Finalizing

  /** One condition; `since` is its LastTransitionTime. */
  datatype Condition = Condition(holds: bool, reason: Reason, generation: nat, since: int)

  datatype Conditions = Conditions(ready: Option<Condition>, degraded: Option<Condition>)

  datatype NodeStatus = NodeStatus(node: Node, verified: bool)

  datatype Status = Status(
    conditions: Conditions,
    observedGeneration: nat,
    allocations: Option<Allocations>,
    nodes: seq<NodeStatus>,
    activePath: string,
    dataPath: Option<int>,
    configHashes: map<Node, int>,
    appliedSpec: Option<ServiceSpec>,
    correlationId: string)

  const EmptyStatus := Status(Conditions(None, None), 0, None, [], "", None, map[], None, "")

  datatype Service = Service(
    spec: ServiceSpec,
    generation: nat,
    deleting: bool,
    finalizer: bool,
    status: Status)

  /** upsertCondition: the transition time is stamped only when the condition's
      status changes. */
  function Upsert(prior: Option<Condition>, next: Condition): (c: Condition)
  {
    if prior.Some? && prior.value.holds == next.holds then next.(since := prior.value.since) else next
  }

  function SetRefusal(st: Status, gen: nat, kind: Kind, now: int): (r: Status) {
    st.(conditions := Conditions(
          Some(Upsert(st.conditions.ready, Condition(false, Refused(kind), gen, now))),
          Some(Upsert(st.conditions.degraded, Condition(true, Refused(kind), gen, now)))),
        observedGeneration := gen)
  }

  function SetFinalizing(st: Status, gen: nat, now: int): (r: Status) {
    st.(conditions := st.conditions.(ready := Some(Upsert(st.conditions.ready, Condition(false, Finalizing, gen, now)))),
        observedGeneration := gen)
  }

  function SetReadyOutcome(st: Status, gen: nat, hashes: map<Node, int>, applied: ServiceSpec,
                           corr: string, activePath: string, alloc: Allocations, now: int): (r: Status)
  {
    st.(conditions := Conditions(
          Some(Upsert(st.conditions.ready, Condition(true, Verified, gen, now))),
          Some(Upsert(st.conditions.degraded, Condition(false, Verified, gen, now)))),
        observedGeneration := gen,
        configHashes := hashes,
        appliedSpec := Some(applied),
        correlationId := corr,
        activePath := activePath,
        allocations := Some(alloc))
  }

  predicate IsReady(st: Status) {
    st.conditions.ready.Some? && st.conditions.ready.value.holds
  }

  function Pick<T(==)>(stored: T, base: T, next: T): T {
    if next == base then stored else next
  }

  /** Status().Patch with MergeFrom(base): only the fields that differ from the
      base snapshot travel, and they land on whatever the server holds. */
  function MergePatch(stored: Status, base: Status, next: Status): (r: Status) {
    Status(
      Pick(stored.conditions, base.conditions, next.conditions),
      Pick(stored.observedGeneration, base.observedGeneration, next.observedGeneration),
      Pick(stored.allocations, base.allocations, next.allocations),
      Pick(stored.nodes, base.nodes, next.nodes),
      Pick(stored.activePath, base.activePath, next.activePath),
      Pick(stored.dataPath, base.dataPath, next.dataPath),
      Pick(stored.configHashes, base.configHashes, next.configHashes),
      Pick(stored.appliedSpec, base.appliedSpec, next.appliedSpec),
      Pick(stored.correlationId, base.correlationId, next.correlationId))
  }
}
