/** The Network object, the work order a render makes of it, and what that work
    does to a node's CONFIG_DB rows and port memberships. */
module NetworkModel {
  import opened Text
  import opened SiteNames

  type Node = string

  datatype Router = Router(name: string, l3vni: int, prefixes: seq<string>)
  datatype Irb = Irb(vrf: string, gatewayV4: string, gatewayV6: string)
  datatype BridgeDomain = BridgeDomain(name: string, vlan: int, l2vni: int, irb: Option<Irb>)
  datatype LocalVlan = LocalVlan(name: string, vlan: int)
  datatype AclRule = AclRule(name: string, priority: int, action: string, protocol: string,
                             sourcePrefix: string, destinationPrefix: string, sourcePort: string, destinationPort: string,
                             description: string)
  datatype AccessList = AccessList(name: string, stage: string, family: string, rules: seq<AclRule>, defaultAction: string)
  datatype NetAttachment = NetAttachment(node: Node, attachment: string, vrf: string, vlan: int)

  datatype Network = Network(name: string, namespace: string, routers: seq<Router>, bridgeDomains: seq<BridgeDomain>,
                             vlans: seq<LocalVlan>, accessLists: seq<AccessList>, attachments: seq<NetAttachment>)

  /** Site options; `parses` says which texts are address prefixes. */
  datatype Options = Options(ports: PortMap, nodeKind: string, vtep: string, parses: string -> bool)

  // ---- the work order -------------------------------------------------------------

  datatype RowKey =
    | VrfRow(name: string)
    | VlanRow(vid: int)
    | MapRow(vtep: string, vni: int, vid: int)
    | TunnelRow(vtep: string)
    | NvoRow
    | AclTableRow(table: string)
    | AclRuleRow(table: string, rule: string)

  /** One effect of an op. A GCU add sets a whole row; the stale-map cleanup
      drops every tunnel map of a VLAN but the one kept. */
  datatype Write =
    | HSet(key: RowKey, field: string, value: string)
    | SetRow(key: RowKey, fields: map<string, string>)
    | DelRow(key: RowKey)
    | DropStaleMaps(vtep: string, vid: int, keep: int)
    | Join(port: string, vid: int)
    | Leave(port: string, vid: int)

  datatype Check =
    | RowExists(key: RowKey)
    | RowField(key: RowKey, field: string, want: string)

  datatype NodePlan = NodePlan(ops: seq<Write>, checks: seq<Check>, rollback: seq<Write>)

  const EmptyPlan := NodePlan([], [], [])

  function Append(np: NodePlan, more: NodePlan): NodePlan {
    NodePlan(np.ops + more.ops, np.checks + more.checks, np.rollback + more.rollback)
  }

  type Plan = map<Node, NodePlan>

  // ---- a node ------------------------------------------------------------------------

  type Row = map<string, string>
  datatype State = State(rows: map<RowKey, Row>, members: set<(string, int)>)

  predicate Stale(w: Write, k: RowKey)
    requires w.DropStaleMaps?
  {
    k.MapRow? && k.vtep == w.vtep && k.vid == w.vid && k.vni != w.keep
  }

  function Do(s: State, w: Write): State {
    match w
    case HSet(k, f, v) => s.(rows := s.rows[k := (if k in s.rows then s.rows[k] else map[])[f := v]])
    case SetRow(k, fields) => s.(rows := s.rows[k := fields])
    case DelRow(k) => s.(rows := s.rows - {k})
    case DropStaleMaps(_, _, _) => s.(rows := map k | k in s.rows && !Stale(w, k) :: s.rows[k])
    case Join(p, v) => s.(members := s.members + {(p, v)})
    case Leave(p, v) => s.(members := s.members - {(p, v)})
  }

  function DoAll(s: State, ws: seq<Write>): State
    decreases |ws|
  {
    if ws == [] then s else DoAll(Do(s, ws[0]), ws[1..])
  }

  lemma {:induction false} DoAllConcat(s: State, a: seq<Write>, b: seq<Write>)
    ensures DoAll(s, a + b) == DoAll(DoAll(s, a), b)
    decreases |a|
  {
    if a == [] {
      assert a + b == b;
    } else {
      assert (a + b)[1..] == a[1..] + b;
      DoAllConcat(Do(s, a[0]), a[1..], b);
    }
  }

  predicate Holds(s: State, c: Check) {
    match c
    case RowExists(k) => k in s.rows
    case RowField(k, f, v) => k in s.rows && f in s.rows[k] && s.rows[k][f] == v
  }

  /** The write leaves a check that holds holding. */
  predicate Spares(w: Write, c: Check) {
    match w
    case HSet(k, f, v) => c.RowField? && k == c.key && f == c.field ==> v == c.want
    case SetRow(k, fields) => c.RowField? && k == c.key ==> c.field in fields && fields[c.field] == c.want
    case DelRow(k) => k != c.key
    case DropStaleMaps(_, _, _) => !Stale(w, c.key)
    case _ => true
  }

  /** The write makes the check hold. */
  predicate Establishes(w: Write, c: Check) {
    match w
    case HSet(k, f, v) => k == c.key && (c.RowField? ==> f == c.field && v == c.want)
    case SetRow(k, fields) => k == c.key && (c.RowField? ==> c.field in fields && fields[c.field] == c.want)
    case _ => false
  }

  lemma {:induction false} SparedStaysTrue(s: State, ws: seq<Write>, c: Check)
    requires Holds(s, c) && forall w :: w in ws ==> Spares(w, c)
    ensures Holds(DoAll(s, ws), c)
    decreases |ws|
  {
    if ws != [] {
      assert Spares(ws[0], c);
      SparedStaysTrue(Do(s, ws[0]), ws[1..], c);
    }
  }

  /** Last writer wins, for a check: if one write makes it true and no write
      spoils it, it is true in the end, whatever the order. */
  lemma {:induction false} EstablishedIsTrue(s: State, ws: seq<Write>, c: Check, w: Write)
    requires w in ws && Establishes(w, c) && forall x :: x in ws ==> Spares(x, c)
    ensures Holds(DoAll(s, ws), c)
    decreases |ws|
  {
    if ws[0] == w {
      assert Holds(Do(s, w), c);
      SparedStaysTrue(Do(s, w), ws[1..], c);
    } else {
      EstablishedIsTrue(Do(s, ws[0]), ws[1..], c, w);
    }
  }

  // ---- rollback ------------------------------------------------------------------------

  /** Rows the site owns: a plan may create them and never takes them back. */
  predicate Baseline(k: RowKey) {
    k.TunnelRow? || k.NvoRow?
  }

  /** Every row and membership the ops create is one the rollback removes, and the
      rollback only removes. */
  ghost predicate Covered(np: NodePlan) {
    && (forall w :: w in np.ops && (w.HSet? || w.SetRow?) && !Baseline(w.key) ==> DelRow(w.key) in np.rollback)
    && (forall w :: w in np.ops && w.Join? ==> Leave(w.port, w.vid) in np.rollback)
    && (forall w :: w in np.rollback ==> w.DelRow? || w.Leave?)
  }

  lemma CoveredAppend(a: NodePlan, b: NodePlan)
    requires Covered(a) && Covered(b)
    ensures Covered(Append(a, b))
  {
  }

  lemma {:induction false} RemovalsRemove(s: State, ws: seq<Write>, w: Write)
    requires (forall x :: x in ws ==> x.DelRow? || x.Leave?) && w in ws
    ensures w.DelRow? ==> w.key !in DoAll(s, ws).rows
    ensures w.Leave? ==> (w.port, w.vid) !in DoAll(s, ws).members
    decreases |ws|
  {
    if ws[0] == w {
      RemovalsOnlyRemove(Do(s, w), ws[1..]);
    } else {
      RemovalsRemove(Do(s, ws[0]), ws[1..], w);
    }
  }

  lemma {:induction false} RemovalsOnlyRemove(s: State, ws: seq<Write>)
    requires forall x :: x in ws ==> x.DelRow? || x.Leave?
    ensures DoAll(s, ws).rows.Keys <= s.rows.Keys && DoAll(s, ws).members <= s.members
    decreases |ws|
  {
    if ws != [] {
      assert ws[0] in ws;
      RemovalsOnlyRemove(Do(s, ws[0]), ws[1..]);
    }
  }

  /** A covered plan that was applied and rolled back leaves none of its rows and
      memberships, from any state. */
  lemma RollbackLeavesNothing(s: State, np: NodePlan, w: Write)
    requires Covered(np) && w in np.ops
    ensures var s' := DoAll(DoAll(s, np.ops), np.rollback);
      && ((w.HSet? || w.SetRow?) && !Baseline(w.key) ==> w.key !in s'.rows)
      && (w.Join? ==> (w.port, w.vid) !in s'.members)
  {
    if (w.HSet? || w.SetRow?) && !Baseline(w.key) { RemovalsRemove(DoAll(s, np.ops), np.rollback, DelRow(w.key)); }
    if w.Join? { RemovalsRemove(DoAll(s, np.ops), np.rollback, Leave(w.port, w.vid)); }
  }
}
