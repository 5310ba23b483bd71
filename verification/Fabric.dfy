/** Plans against devices: the executor's apply, the ordered apply and rollback
    of a plan, and the update that removes, applies and leaves exactly the new
    render. */
module Fabric {
  import opened Text
  import opened ServiceObjects
  import opened PassMachine
  import opened Devices

  // ---- the executor ----------------------------------------------------------------

  /** An op with nothing in it is a plan bug the executor reports. */
  predicate Empty(op: Op) {
    match op
    case Gcu(patch) => patch == []
    case Shell(cmds) => cmds == []
    case OnClient(_, cmds) => cmds == []
  }

  /** The i'th op goes through, unless it is empty or the node fails it after
      some of its writes. */
  predicate Fails(ops: seq<Op>, fails: map<nat, nat>, i: nat)
    requires i < |ops|
  {
    Empty(ops[i]) || i in fails
  }

  /** No op from the i'th on fails. */
  predicate GoFrom(ops: seq<Op>, fails: map<nat, nat>, i: nat)
    decreases |ops| - i
  {
    i >= |ops| || (!Fails(ops, fails, i) && GoFrom(ops, fails, i + 1))
  }

  lemma {:induction false} GoFromMeans(ops: seq<Op>, fails: map<nat, nat>, i: nat)
    ensures GoFrom(ops, fails, i) <==> forall j :: i <= j < |ops| ==> !Fails(ops, fails, j)
    decreases |ops| - i
  {
    if i < |ops| { GoFromMeans(ops, fails, i + 1); }
  }

  function Partly(op: Op, fails: map<nat, nat>, i: nat): seq<Atom> {
    if i in fails && fails[i] <= |OpAtoms(op)| then OpAtoms(op)[..fails[i]] else []
  }

  /** Op i is the first to fail, and the device holds the ops before it and a part
      of it. */
  ghost predicate StoppedAt(device: Device, ops: seq<Op>, fails: map<nat, nat>, i: nat, after: Device) {
    && i < |ops| && Fails(ops, fails, i)
    && (forall j :: 0 <= j < i ==> !Fails(ops, fails, j))
    && after == DoAll(device, Atoms(ops[..i]) + Partly(ops[i], fails, i))
  }

  /** handleApply: op by op, to the first failure. OK means that every op went
      through; on a failure the node holds the ops before it, and a part of it. */
  method HandleApply(device: Device, ops: seq<Op>, fails: map<nat, nat>)
    returns (results: seq<bool>, ok: bool, after: Device)
    ensures ok <==> forall i :: 0 <= i < |ops| ==> !Fails(ops, fails, i)
    ensures ok ==> |results| == |ops| && after == DoAll(device, Atoms(ops))
    ensures !ok ==> |results| > 0 && StoppedAt(device, ops, fails, |results| - 1, after)
    ensures forall i :: 0 <= i < |results| ==> results[i] == !Fails(ops, fails, i)
  {
    results, ok, after := [], true, device;
    for i := 0 to |ops|
      invariant ok && |results| == i && Through(ops, fails, results)
      invariant after == DoAll(device, Atoms(ops[..i]))
    {
      ok, after := RunOne(device, ops, fails, i, after);
      Reported(ops, fails, results, ok);
      results := results + [ok];
      if !ok { return; }
    }
    assert ops[..|ops|] == ops;
  }

  /** Every op so far went through, and was reported so. */
  ghost predicate Through(ops: seq<Op>, fails: map<nat, nat>, results: seq<bool>) {
    |results| <= |ops| && forall j :: 0 <= j < |results| ==> results[j] && !Fails(ops, fails, j)
  }

  lemma Reported(ops: seq<Op>, fails: map<nat, nat>, results: seq<bool>, ok: bool)
    requires Through(ops, fails, results) && |results| < |ops| && ok == !Fails(ops, fails, |results|)
    ensures ok ==> Through(ops, fails, results + [ok])
    ensures forall j :: 0 <= j < |results + [ok]| ==> (results + [ok])[j] == !Fails(ops, fails, j)
  {
  }

  method RunOne(ghost device: Device, ops: seq<Op>, fails: map<nat, nat>, i: nat, sofar: Device) returns (ok: bool, after: Device)
    requires i < |ops| && sofar == DoAll(device, Atoms(ops[..i]))
    ensures ok == !Fails(ops, fails, i)
    ensures ok ==> after == DoAll(device, Atoms(ops[..i + 1]))
    ensures !ok ==> after == DoAll(device, Atoms(ops[..i]) + Partly(ops[i], fails, i))
  {
    ok := !Fails(ops, fails, i);
    if ok {
      RunNext(device, ops, i);
      after := DoAll(sofar, OpAtoms(ops[i]));
    } else {
      DoAllConcat(device, Atoms(ops[..i]), Partly(ops[i], fails, i));
      after := DoAll(sofar, Partly(ops[i], fails, i));
    }
  }

  lemma RunNext(device: Device, ops: seq<Op>, i: nat)
    requires i < |ops|
    ensures DoAll(device, Atoms(ops[..i + 1])) == DoAll(DoAll(device, Atoms(ops[..i])), OpAtoms(ops[i]))
  {
    AtomsNext(ops, i);
    DoAllConcat(device, Atoms(ops[..i]), OpAtoms(ops[i]));
  }

  /** How one call goes: whether it reaches the node, and which ops fail there. */
  datatype Answer = Answer(reached: bool, permanent: bool, fails: map<nat, nat>)

  function DeviceOf(devices: map<Node, Device>, n: Node): Device {
    if n in devices then devices[n] else map[]
  }

  // ---- what an update should leave ------------------------------------------------

  /** diffPlans for one node: the previous ops the new plan no longer has. */
  function Lost(prev: Plan, next: Plan, n: Node): seq<Op> {
    Without(OpsOn(prev, n), OpsOn(next, n))
  }

  function Without(ops: seq<Op>, kept: seq<Op>): seq<Op> {
    if ops == [] then [] else (if ops[0] in kept then [] else [ops[0]]) + Without(ops[1..], kept)
  }

  lemma {:induction false} WithoutMeans(ops: seq<Op>, kept: seq<Op>)
    ensures forall op :: op in Without(ops, kept) <==> op in ops && op !in kept
  {
    if ops != [] { WithoutMeans(ops[1..], kept); }
  }

  lemma {:induction false} WithoutNext(ops: seq<Op>, kept: seq<Op>, i: nat)
    requires i < |ops|
    ensures Without(ops[..i + 1], kept) == Without(ops[..i], kept) + if ops[i] in kept then [] else [ops[i]]
  {
    if i == 0 {
      assert ops[..1][1..] == [];
    } else {
      WithoutNext(ops[1..], kept, i - 1);
      assert ops[..i + 1][1..] == ops[1..][..i] && ops[..i][1..] == ops[1..][..i - 1];
    }
  }

  function Applied(plan: Plan, n: Node, d: Device): Device {
    DoAll(d, Atoms(OpsOn(plan, n)))
  }

  function RolledBack(plan: Plan, n: Node, d: Device): Device {
    if n in plan.nodes then DoAll(d, Atoms(plan.nodes[n].rollback)) else d
  }

  function Removed(prev: Plan, next: Plan, n: Node, d: Device): Device {
    if LostAnOp(prev, next, n) then RolledBack(prev, n, d) else d
  }

  function Updated(prev: Plan, next: Plan, n: Node, d: Device): Device {
    Applied(next, n, Removed(prev, next, n, d))
  }

  /** Every plan the renderer makes covers its ops on every node. */
  ghost predicate PlanCovered(plan: Plan) {
    forall n :: n in plan.nodes ==> Covered(plan.nodes[n])
  }

  /** After the update a node's entries for the service are exactly the new
      render's: a cell either plan makes holds what the new ops leave in it, or
      nothing; a cell neither the removal nor the new ops touch is as it was; a
      node that lost no op had no rollback. */
  lemma UpdateIsExact(prev: Plan, next: Plan, n: Node, d: Device, c: Cell)
    requires PlanCovered(prev)
    ensures var d' := Updated(prev, next, n, d);
      && (Makes(OpsOn(prev, n), c) || Makes(OpsOn(next, n), c) ==> Look(d', c) == EntryLeft(OpsOn(next, n), c))
      && ((Verdicts(Atoms(OpsOn(next, n)), c) == Untouched
           && (LostAnOp(prev, next, n) ==> Verdicts(Atoms(prev.nodes[n].rollback), c) == Untouched))
          ==> Look(d', c) == Look(d, c))
      && (Lost(prev, next, n) == [] ==> Removed(prev, next, n, d) == d)
  {
    var ops := OpsOn(next, n);
    WithoutMeans(OpsOn(prev, n), ops);
    LastWriterWins(Removed(prev, next, n, d), Atoms(ops), c);
    if LostAnOp(prev, next, n) {
      LastWriterWins(d, Atoms(prev.nodes[n].rollback), c);
      var op :| op in prev.nodes[n].ops && (n in next.nodes ==> op !in next.nodes[n].ops);
      assert op in Lost(prev, next, n);
    } else if Makes(OpsOn(prev, n), c) {
      var op := TouchedByOne(OpsOn(prev, n), c);
      OpTouches(ops, op, c);
    }
  }

  /** The device after a removal of which this many writes landed. */
  function RemovedPartly(prev: Plan, n: Node, d: Device, landed: nat): Device
    requires n in prev.nodes && landed <= |Atoms(prev.nodes[n].rollback)|
  {
    DoAll(d, Atoms(prev.nodes[n].rollback)[..landed])
  }

  /** The node holds the new render's entries, and nothing else of either render. */
  ghost predicate ExactOn(prev: Plan, next: Plan, n: Node, d: Device) {
    forall c :: Makes(OpsOn(prev, n), c) || Makes(OpsOn(next, n), c) ==> Look(d, c) == EntryLeft(OpsOn(next, n), c)
  }

  /** The previous render made an entry here that the new ops do not touch. */
  ghost predicate PrevOnly(prev: Plan, next: Plan, n: Node) {
    exists c :: Makes(OpsOn(prev, n), c) && Verdicts(Atoms(OpsOn(next, n)), c) == Untouched
  }

  /** The update ends exact on this node, however much of a rejected removal lands. */
  ghost predicate AlwaysExact(prev: Plan, next: Plan, n: Node, d: Device, ok: bool)
    requires n in prev.nodes
  {
    forall landed: nat :: landed <= |Atoms(prev.nodes[n].rollback)| && (ok ==> landed == |Atoms(prev.nodes[n].rollback)|) ==>
      ExactOn(prev, next, n, Applied(next, n, RemovedPartly(prev, n, d, landed)))
  }

  /** The answer of a removal call is not looked at. Over a node that holds the
      previous render, the update is sure to end exact exactly when that answer was
      OK or the previous render made nothing of its own there. */
  lemma RemovalAnswerDecides(prev: Plan, next: Plan, n: Node, d0: Device, ok: bool)
    requires n in prev.nodes && PlanCovered(prev)
    ensures AlwaysExact(prev, next, n, Applied(prev, n, d0), ok) <==> ok || !PrevOnly(prev, next, n)
  {
    var d, rollback := Applied(prev, n, d0), Atoms(prev.nodes[n].rollback);
    if ok || !PrevOnly(prev, next, n) {
      forall landed: nat | landed <= |rollback| && (ok ==> landed == |rollback|)
        ensures ExactOn(prev, next, n, Applied(next, n, RemovedPartly(prev, n, d, landed)))
      {
        RemovalIsExact(prev, next, n, d, landed);
      }
    } else {
      var c :| Makes(OpsOn(prev, n), c) && Verdicts(Atoms(OpsOn(next, n)), c) == Untouched;
      var none := RemovedPartly(prev, n, d, 0);
      assert rollback[..0] == [];
      LastWriterWins(d0, Atoms(OpsOn(prev, n)), c);
      LastWriterWins(none, Atoms(OpsOn(next, n)), c);
      assert !ExactOn(prev, next, n, Applied(next, n, none));
    }
  }

  lemma RemovalIsExact(prev: Plan, next: Plan, n: Node, d: Device, landed: nat)
    requires n in prev.nodes && PlanCovered(prev) && landed <= |Atoms(prev.nodes[n].rollback)|
    requires landed == |Atoms(prev.nodes[n].rollback)| || !PrevOnly(prev, next, n)
    ensures ExactOn(prev, next, n, Applied(next, n, RemovedPartly(prev, n, d, landed)))
  {
    var rollback := Atoms(prev.nodes[n].rollback);
    var removed := RemovedPartly(prev, n, d, landed);
    forall c | Makes(OpsOn(prev, n), c) || Makes(OpsOn(next, n), c)
      ensures Look(Applied(next, n, removed), c) == EntryLeft(OpsOn(next, n), c)
    {
      LastWriterWins(removed, Atoms(OpsOn(next, n)), c);
      if Verdicts(Atoms(OpsOn(next, n)), c) == Untouched {
        assert landed == |rollback| && rollback[..landed] == rollback;
        assert Covered(prev.nodes[n]);
        LastWriterWins(d, rollback, c);
      }
    }
  }

  /** A failed update brings back the previous plan's own entries on every node
      where the restore went through, and only those: an entry that only the new
      plan makes is still there if it was. */
  lemma RestoreBringsBackPrevious(prev: Plan, n: Node, half: Device, c: Cell)
    requires n in prev.nodes
    ensures var d' := Applied(prev, n, RolledBack(prev, n, half));
      && (Makes(OpsOn(prev, n), c) ==> Look(d', c) == EntryLeft(OpsOn(prev, n), c))
      && (Verdicts(Atoms(OpsOn(prev, n)), c) == Untouched && Verdicts(Atoms(prev.nodes[n].rollback), c) == Untouched ==>
            Look(d', c) == Look(half, c))
  {
    LastWriterWins(half, Atoms(prev.nodes[n].rollback), c);
    LastWriterWins(RolledBack(prev, n, half), Atoms(OpsOn(prev, n)), c);
  }

  function Wanted(plan: Plan, devices: map<Node, Device>): map<Node, Device> {
    map n | n in plan.nodes :: Applied(plan, n, DeviceOf(devices, n))
  }

  lemma WantedAt(plan: Plan, devices: map<Node, Device>, n: Node)
    requires n in plan.nodes
    ensures n in Wanted(plan, devices) && Wanted(plan, devices)[n] == Applied(plan, n, DeviceOf(devices, n))
  {
  }

  // ---- walks over the nodes ------------------------------------------------------------

  /** The first i nodes of the order are as wanted, all others as they were. */
  ghost predicate Halfway(devices: map<Node, Device>, start: map<Node, Device>, want: map<Node, Device>, order: seq<Node>, i: nat)
    requires i <= |order|
  {
    && (forall n :: n in order[..i] ==> n in want && DeviceOf(devices, n) == want[n])
    && (forall n :: n !in order[..i] ==> DeviceOf(devices, n) == DeviceOf(start, n))
  }

  lemma HalfwayAt(devices: map<Node, Device>, start: map<Node, Device>, want: map<Node, Device>, order: seq<Node>, i: nat)
    requires i < |order| && Distinct(order) && Halfway(devices, start, want, order, i)
    ensures DeviceOf(devices, order[i]) == DeviceOf(start, order[i])
  {
  }

  lemma HalfwayNext(devices: map<Node, Device>, after: map<Node, Device>, start: map<Node, Device>,
                    want: map<Node, Device>, order: seq<Node>, i: nat)
    requires i < |order| && order[i] in want && Halfway(devices, start, want, order, i)
    requires DeviceOf(after, order[i]) == want[order[i]]
    requires forall n :: n != order[i] ==> DeviceOf(after, n) == DeviceOf(devices, n)
    ensures Halfway(after, start, want, order, i + 1)
  {
    assert order[..i + 1] == order[..i] + [order[i]];
  }

  lemma HalfwayDone(devices: map<Node, Device>, start: map<Node, Device>, want: map<Node, Device>, order: seq<Node>)
    requires Halfway(devices, start, want, order, |order|)
    ensures forall n :: DeviceOf(devices, n) == if n in order then want[n] else DeviceOf(start, n)
  {
    assert order[..|order|] == order;
  }

  /** The first i nodes as wanted, node i as may be, and the others as they were. */
  ghost predicate StoppedWalk(devices: map<Node, Device>, start: map<Node, Device>, want: map<Node, Device>, order: seq<Node>, i: nat)
    requires i < |order|
  {
    && (forall n :: n in order[..i] ==> n in want && DeviceOf(devices, n) == want[n])
    && (forall n :: n !in order[..i + 1] ==> DeviceOf(devices, n) == DeviceOf(start, n))
  }

  /** A walk that stopped at node i leaves the nodes after it as they were. */
  lemma StoppedThere(devices: map<Node, Device>, before: map<Node, Device>, start: map<Node, Device>,
                     want: map<Node, Device>, order: seq<Node>, i: nat)
    requires i < |order| && Distinct(order) && Halfway(before, start, want, order, i)
    requires forall n :: n != order[i] ==> DeviceOf(devices, n) == DeviceOf(before, n)
    ensures StoppedWalk(devices, start, want, order, i)
  {
    assert order[..i + 1] == order[..i] + [order[i]];
    assert order[i] !in order[..i];
  }

  lemma RollbackNext(plan: Plan, order: seq<Node>, i: nat, done: seq<Node>)
    requires i < |order| && Distinct(order) && (forall n :: n in order ==> n in plan.nodes) && (forall n :: n in done ==> n in order[..i])
    ensures order[i] !in done && order[i] in order[..i + 1] && (forall n :: n in done ==> n in order[..i + 1])
    ensures plan.nodes[order[i]].rollback == [] ==> WithRollback(plan, order[i..]) == WithRollback(plan, order[i + 1..])
    ensures plan.nodes[order[i]].rollback != [] ==>
      done + WithRollback(plan, order[i..]) == (done + [order[i]]) + WithRollback(plan, order[i + 1..])
  {
    assert order[i..][0] == order[i] && order[i..][1..] == order[i + 1..];
    assert order[..i + 1] == order[..i] + [order[i]];
  }

  // ---- the controller's side ----------------------------------------------------------

  class Driver {
    const answers: nat -> Answer
    var devices: map<Node, Device>
    var calls: nat

    constructor (a: nat -> Answer, d: map<Node, Device>)
      ensures answers == a && devices == d && calls == 0
    {
      answers, devices, calls := a, d, 0;
    }

    /** Call number i reaches its node, and no op fails there. */
    ghost predicate Clean(i: nat) {
      answers(i).reached && answers(i).fails == map[]
    }

    /** Call number i is accepted with these ops. */
    ghost predicate Goes(i: nat, ops: seq<Op>) {
      answers(i).reached && GoFrom(ops, answers(i).fails, 0)
    }

    method Apply(n: Node, ops: seq<Op>) returns (exec: Exec)
      modifies this
      ensures calls == old(calls) + 1
      ensures exec.Accepted? ==> devices == old(devices)[n := DoAll(DeviceOf(old(devices), n), Atoms(ops))]
      ensures exec.Accepted? <==> Goes(old(calls), ops)
      ensures exec.Accepted? || exec.Rejected? <==> answers(old(calls)).reached
      ensures forall m :: m != n ==> DeviceOf(devices, m) == DeviceOf(old(devices), m)
    {
      var answer := answers(calls);
      calls := calls + 1;
      if !answer.reached {
        return if answer.permanent then PermanentlyRefused else Unreachable;
      }
      var results, ok, after := HandleApply(DeviceOf(devices, n), ops, answer.fails);
      GoFromMeans(ops, answer.fails, 0);
      devices := devices[n := after];
      exec := if ok then Accepted else Rejected;
    }

    /** applyPlan. None: every node took its whole plan. A failed node is the first
        in plan order whose call did not go; the nodes before it hold their plan,
        the nodes after it saw no call. */
    method ApplyPlan(plan: Plan) returns (failed: Option<Node>)
      modifies this
      ensures Outcome(plan, PlanOrder(plan), old(calls), failed, old(devices))
    {
      failed := ApplyInOrder(plan, PlanOrder(plan));
    }

    /** What an ordered apply since call `from` has done. */
    ghost predicate Outcome(plan: Plan, order: seq<Node>, from: nat, failed: Option<Node>, start: map<Node, Device>)
      requires forall n :: n in order ==> n in plan.nodes
      reads this
    {
      && (failed.None? ==> Gone(plan, order, |order|, from) && calls == from + |order|
                           && forall n :: DeviceOf(devices, n) == Applied(plan, n, DeviceOf(start, n)))
      && (failed.Some? ==> FailedIn(plan, order, from, failed.value, start))
      && (forall n :: n !in plan.nodes ==> DeviceOf(devices, n) == DeviceOf(start, n))
    }

    method ApplyInOrder(plan: Plan, order: seq<Node>) returns (failed: Option<Node>)
      requires Distinct(order) && forall n :: n in order <==> n in plan.nodes
      modifies this
      ensures Outcome(plan, order, old(calls), failed, old(devices))
    {
      ghost var want := Wanted(plan, devices);
      failed := ApplyEach(plan, order, want);
      if failed.None? {
        DoneHere(plan, order, old(calls), old(devices), want);
      } else {
        FailedHere(plan, order, old(calls), failed.value, old(devices), want);
      }
    }

    method ApplyEach(plan: Plan, order: seq<Node>, ghost want: map<Node, Device>) returns (failed: Option<Node>)
      requires Distinct(order) && (forall n :: n in order ==> n in plan.nodes) && want == Wanted(plan, devices)
      modifies this
      ensures failed.None? ==> AppliedTo(plan, order, |order|, old(calls), old(devices), want)
      ensures failed.Some? ==> StuckAt(plan, order, failed.value, old(calls), old(devices), want)
    {
      for i := 0 to |order|
        invariant AppliedTo(plan, order, i, old(calls), old(devices), want)
      {
        var ok := ApplyNext(plan, order, i, old(calls), old(devices), want);
        if !ok { return Some(order[i]); }
      }
      failed := None;
    }

    /** The first k nodes took their plan, one call each. */
    ghost predicate AppliedTo(plan: Plan, order: seq<Node>, k: nat, from: nat, start: map<Node, Device>, want: map<Node, Device>)
      requires k <= |order| && forall n :: n in order ==> n in plan.nodes
      reads this
    {
      calls == from + k && Halfway(devices, start, want, order, k) && Gone(plan, order, k, from)
    }

    /** The last call did not go, and the walk stopped there. */
    ghost predicate StuckAt(plan: Plan, order: seq<Node>, node: Node, from: nat, start: map<Node, Device>, want: map<Node, Device>)
      reads this
    {
      && 0 < calls - from <= |order| && node == order[calls - from - 1] && node in plan.nodes
      && !Goes(calls - 1, plan.nodes[node].ops)
      && StoppedWalk(devices, start, want, order, calls - from - 1)
    }

    method ApplyNext(plan: Plan, order: seq<Node>, i: nat, ghost from: nat, ghost start: map<Node, Device>, ghost want: map<Node, Device>)
      returns (ok: bool)
      requires Distinct(order) && i < |order| && (forall n :: n in order ==> n in plan.nodes) && want == Wanted(plan, start)
      requires AppliedTo(plan, order, i, from, start, want)
      modifies this
      ensures ok ==> AppliedTo(plan, order, i + 1, from, start, want)
      ensures !ok ==> StuckAt(plan, order, order[i], from, start, want)
    {
      ghost var before := devices;
      var exec := Apply(order[i], plan.nodes[order[i]].ops);
      ok := exec.Accepted?;
      hide *;
      if ok { WentOn(plan, order, i, from, before, start, want); } else { StuckOn(plan, order, i, from, before, start, want); }
    }

    lemma WentOn(plan: Plan, order: seq<Node>, i: nat, from: nat, before: map<Node, Device>, start: map<Node, Device>, want: map<Node, Device>)
      requires Distinct(order) && i < |order| && (forall n :: n in order ==> n in plan.nodes) && want == Wanted(plan, start)
      requires Halfway(before, start, want, order, i) && Gone(plan, order, i, from) && calls == from + i + 1
      requires devices == before[order[i] := DoAll(DeviceOf(before, order[i]), Atoms(plan.nodes[order[i]].ops))]
      requires Goes(from + i, plan.nodes[order[i]].ops) && forall m :: m != order[i] ==> DeviceOf(devices, m) == DeviceOf(before, m)
      ensures AppliedTo(plan, order, i + 1, from, start, want)
    {
      HalfwayAt(before, start, want, order, i);
      WantedAt(plan, start, order[i]);
      HalfwayNext(before, devices, start, want, order, i);
      GoneOn(plan, order, i, from);
    }

    lemma StuckOn(plan: Plan, order: seq<Node>, i: nat, from: nat, before: map<Node, Device>, start: map<Node, Device>, want: map<Node, Device>)
      requires Distinct(order) && i < |order| && (forall n :: n in order ==> n in plan.nodes)
      requires Halfway(before, start, want, order, i) && calls == from + i + 1
      requires !Goes(from + i, plan.nodes[order[i]].ops) && forall m :: m != order[i] ==> DeviceOf(devices, m) == DeviceOf(before, m)
      ensures StuckAt(plan, order, order[i], from, start, want)
    {
      StoppedThere(devices, before, start, want, order, i);
    }

    lemma GoneOn(plan: Plan, order: seq<Node>, i: nat, from: nat)
      requires i < |order| && (forall n :: n in order ==> n in plan.nodes) && Gone(plan, order, i, from)
      requires Goes(from + i, plan.nodes[order[i]].ops)
      ensures Gone(plan, order, i + 1, from)
    {
    }

    /** The first k calls went through. */
    ghost predicate Gone(plan: Plan, nodes: seq<Node>, k: nat, from: nat)
      requires k <= |nodes| && forall n :: n in nodes ==> n in plan.nodes
    {
      forall j :: 0 <= j < k ==> Goes(from + j, plan.nodes[nodes[j]].ops)
    }

    lemma DoneHere(plan: Plan, order: seq<Node>, from: nat, start: map<Node, Device>, want: map<Node, Device>)
      requires (forall n :: n in order <==> n in plan.nodes) && want == Wanted(plan, start)
      requires AppliedTo(plan, order, |order|, from, start, want)
      ensures Outcome(plan, order, from, None, start)
    {
      HalfwayDone(devices, start, want, order);
    }

    lemma FailedHere(plan: Plan, order: seq<Node>, from: nat, node: Node, start: map<Node, Device>, want: map<Node, Device>)
      requires (forall n :: n in order <==> n in plan.nodes) && want == Wanted(plan, start)
      requires StuckAt(plan, order, node, from, start, want)
      ensures Outcome(plan, order, from, Some(node), start)
    {
      forall n | n !in plan.nodes ensures DeviceOf(devices, n) == DeviceOf(start, n) { assert n !in order[..calls - from]; }
    }

    /** The walk over a plan since call `from` ended at this node. */
    ghost predicate FailedIn(plan: Plan, order: seq<Node>, from: nat, node: Node, start: map<Node, Device>)
      requires forall n :: n in order ==> n in plan.nodes
      reads this
    {
      && 0 < calls - from <= |order|
      && var k := calls - from - 1;
         && node == order[k] && !Goes(calls - 1, plan.nodes[node].ops)
         && (forall n :: n in order[..k] ==> DeviceOf(devices, n) == Applied(plan, n, DeviceOf(start, n)))
         && (forall n :: n !in order[..k + 1] ==> DeviceOf(devices, n) == DeviceOf(start, n))
    }

    /** rollbackPlan: every node with a rollback gets its call, whatever the calls
        before it answered; the first bad one is reported. */
    method RollbackPlan(plan: Plan) returns (firstErr: Option<Node>)
      modifies this
      ensures calls == old(calls) + |WithRollback(plan, PlanOrder(plan))|
      ensures FirstBad(plan, WithRollback(plan, PlanOrder(plan)), old(calls), firstErr)
      ensures Walked(plan, WithRollback(plan, PlanOrder(plan)), old(calls), old(devices), devices)
      ensures firstErr.None? ==> forall n :: DeviceOf(devices, n) == RolledBack(plan, n, DeviceOf(old(devices), n))
      ensures forall n :: n !in plan.nodes ==> DeviceOf(devices, n) == DeviceOf(old(devices), n)
    {
      firstErr := RollbackInOrder(plan, PlanOrder(plan));
      if firstErr.None? { AllWalked(plan, old(calls), old(devices)); }
    }

    method RollbackInOrder(plan: Plan, order: seq<Node>) returns (firstErr: Option<Node>)
      requires Distinct(order) && forall n :: n in order ==> n in plan.nodes
      modifies this
      ensures calls == old(calls) + |WithRollback(plan, order)|
      ensures FirstBad(plan, WithRollback(plan, order), old(calls), firstErr)
      ensures Walked(plan, WithRollback(plan, order), old(calls), old(devices), devices)
    {
      firstErr := None;
      ghost var done: seq<Node> := [];
      assert order[0..] == order;
      for i := 0 to |order|
        invariant RolledSoFar(plan, order, i, done, old(calls), firstErr, old(devices))
      {
        firstErr, done := RollbackNode(plan, order, i, firstErr, done, old(calls), old(devices));
      }
      assert done + [] == done;
    }

    /** The walk up to node i: `done` are the nodes that got a call. */
    ghost predicate RolledSoFar(plan: Plan, order: seq<Node>, i: nat, done: seq<Node>, from: nat, bad: Option<Node>, start: map<Node, Device>)
      requires i <= |order| && forall n :: n in order ==> n in plan.nodes
      reads this
    {
      && (forall n :: n in done ==> n in plan.nodes && n in order[..i])
      && WithRollback(plan, order) == done + WithRollback(plan, order[i..])
      && calls == from + |done| && FirstBad(plan, done, from, bad) && Walked(plan, done, from, start, devices)
    }

    method RollbackNode(plan: Plan, order: seq<Node>, i: nat, bad: Option<Node>, ghost done: seq<Node>,
                        ghost from: nat, ghost start: map<Node, Device>)
      returns (bad': Option<Node>, ghost done': seq<Node>)
      requires Distinct(order) && i < |order| && forall n :: n in order ==> n in plan.nodes
      requires RolledSoFar(plan, order, i, done, from, bad, start)
      modifies this
      ensures RolledSoFar(plan, order, i + 1, done', from, bad', start)
    {
      RollbackNext(plan, order, i, done);
      if plan.nodes[order[i]].rollback == [] { return bad, done; }
      bad' := RollbackOne(plan, order[i], bad, done, from, start);
      done' := done + [order[i]];
      RolledOn(plan, order, i, done, from, bad', start);
    }

    lemma RolledOn(plan: Plan, order: seq<Node>, i: nat, done: seq<Node>, from: nat, bad: Option<Node>, start: map<Node, Device>)
      requires i < |order| && (forall n :: n in order ==> n in plan.nodes) && forall n :: n in done ==> n in plan.nodes && n in order[..i]
      requires WithRollback(plan, order) == (done + [order[i]]) + WithRollback(plan, order[i + 1..])
      requires calls == from + |done| + 1 && FirstBad(plan, done + [order[i]], from, bad)
      requires Walked(plan, done + [order[i]], from, start, devices)
      ensures RolledSoFar(plan, order, i + 1, done + [order[i]], from, bad, start)
    {
      hide FirstBad, Walked, WithRollback;
      assert order[..i + 1] == order[..i] + [order[i]];
    }

    method RollbackOne(plan: Plan, n: Node, bad: Option<Node>, ghost done: seq<Node>, ghost from: nat, ghost start: map<Node, Device>)
      returns (bad': Option<Node>)
      requires n in plan.nodes && n !in done && (forall m :: m in done ==> m in plan.nodes) && calls == from + |done|
      requires FirstBad(plan, done, from, bad) && Walked(plan, done, from, start, devices)
      modifies this
      ensures calls == old(calls) + 1
      ensures FirstBad(plan, done + [n], from, bad') && Walked(plan, done + [n], from, start, devices)
    {
      ghost var before := devices;
      var exec := Apply(n, plan.nodes[n].rollback);
      bad' := if exec.Accepted? || bad.Some? then bad else Some(n);
      BadNext(plan, done, n, from, bad);
      WalkedNext(plan, done, n, from, start, before, devices);
    }

    lemma BadNext(plan: Plan, done: seq<Node>, n: Node, from: nat, bad: Option<Node>)
      requires n in plan.nodes && (forall m :: m in done ==> m in plan.nodes) && FirstBad(plan, done, from, bad)
      ensures FirstBad(plan, done + [n], from,
                       if Goes(from + |done|, plan.nodes[n].rollback) || bad.Some? then bad else Some(n))
    {
      var now := done + [n];
      forall j | 0 <= j < |done| ensures now[j] == done[j] {}
      if bad.Some? {
        var i :| 0 <= i < |done| && bad.value == done[i] && IsFirstBad(plan, done, from, i);
        assert IsFirstBad(plan, now, from, i);
      } else if !Goes(from + |done|, plan.nodes[n].rollback) {
        assert IsFirstBad(plan, now, from, |done|);
      }
    }

    /** Whatever went through is rolled back; a node that got no call is as it was. */
    ghost predicate Walked(plan: Plan, nodes: seq<Node>, from: nat, start: map<Node, Device>, now: map<Node, Device>)
      requires forall n :: n in nodes ==> n in plan.nodes
    {
      && (forall i :: 0 <= i < |nodes| && Goes(from + i, plan.nodes[nodes[i]].rollback) ==>
            DeviceOf(now, nodes[i]) == RolledBack(plan, nodes[i], DeviceOf(start, nodes[i])))
      && (forall n :: n !in nodes ==> DeviceOf(now, n) == DeviceOf(start, n))
    }

    lemma WalkedNext(plan: Plan, done: seq<Node>, n: Node, from: nat, start: map<Node, Device>, before: map<Node, Device>, now: map<Node, Device>)
      requires n in plan.nodes && n !in done && forall m :: m in done ==> m in plan.nodes
      requires Walked(plan, done, from, start, before)
      requires forall m :: m != n ==> DeviceOf(now, m) == DeviceOf(before, m)
      requires Goes(from + |done|, plan.nodes[n].rollback) ==> DeviceOf(now, n) == RolledBack(plan, n, DeviceOf(before, n))
      ensures Walked(plan, done + [n], from, start, now)
    {
      var nodes := done + [n];
      forall i | 0 <= i < |nodes| && Goes(from + i, plan.nodes[nodes[i]].rollback)
        ensures DeviceOf(now, nodes[i]) == RolledBack(plan, nodes[i], DeviceOf(start, nodes[i]))
      {
        if i < |done| { assert nodes[i] == done[i] && done[i] in done; }
      }
      assert n in nodes;
    }

    /** The first of the calls that did not go, or none. */
    ghost predicate FirstBad(plan: Plan, nodes: seq<Node>, from: nat, bad: Option<Node>)
      requires forall n :: n in nodes ==> n in plan.nodes
    {
      match bad
      case None => forall i :: 0 <= i < |nodes| ==> Goes(from + i, plan.nodes[nodes[i]].rollback)
      case Some(n) => exists i :: 0 <= i < |nodes| && n == nodes[i] && IsFirstBad(plan, nodes, from, i)
    }

    ghost predicate IsFirstBad(plan: Plan, nodes: seq<Node>, from: nat, i: nat)
      requires i < |nodes| && forall n :: n in nodes ==> n in plan.nodes
    {
      && !Goes(from + i, plan.nodes[nodes[i]].rollback)
      && forall j :: 0 <= j < i ==> Goes(from + j, plan.nodes[nodes[j]].rollback)
    }

    lemma AllWalked(plan: Plan, from: nat, start: map<Node, Device>)
      requires Walked(plan, WithRollback(plan, PlanOrder(plan)), from, start, devices)
      requires FirstBad(plan, WithRollback(plan, PlanOrder(plan)), from, None)
      ensures forall n :: DeviceOf(devices, n) == RolledBack(plan, n, DeviceOf(start, n))
    {
      var nodes := WithRollback(plan, PlanOrder(plan));
      forall n ensures DeviceOf(devices, n) == RolledBack(plan, n, DeviceOf(start, n)) {
        if n in nodes {
          var i :| 0 <= i < |nodes| && nodes[i] == n;
          assert Goes(from + i, plan.nodes[nodes[i]].rollback);
        } else if n in plan.nodes {
          assert plan.nodes[n].rollback == [];
        }
      }
    }

    /** diffPlans: per node of the previous plan, the ops the new one lacks. */
    method DiffPlans(prev: Plan, next: Plan) returns (removed: map<Node, seq<Op>>)
      ensures forall n :: n in removed <==> n in prev.nodes && LostAnOp(prev, next, n)
      ensures forall n :: n in removed ==> removed[n] == Lost(prev, next, n)
    {
      removed := map[];
      var todo := prev.nodes.Keys;
      while todo != {}
        invariant todo <= prev.nodes.Keys
        invariant forall n :: n in removed <==> n in prev.nodes && n !in todo && LostAnOp(prev, next, n)
        invariant forall n :: n in removed ==> removed[n] == Lost(prev, next, n)
        decreases |todo|
      {
        var n :| n in todo;
        var lost := LostOps(prev.nodes[n].ops, OpsOn(next, n));
        LostMeans(prev, next, n);
        if lost != [] { removed := removed[n := lost]; }
        todo := todo - {n};
      }
    }

    method LostOps(ops: seq<Op>, kept: seq<Op>) returns (lost: seq<Op>)
      ensures lost == Without(ops, kept)
    {
      lost := [];
      for i := 0 to |ops|
        invariant lost == Without(ops[..i], kept)
      {
        WithoutNext(ops, kept, i);
        if ops[i] !in kept { lost := lost + [ops[i]]; }
      }
      assert ops[..|ops|] == ops;
    }

    /** applyUpdate, up to the verify: remove, apply, and on a failed node restore.
        None: applied everywhere. When moreover every removal call went through,
        each device is the updated one, so UpdateIsExact holds of it. A failed
        update that was restored without an error leaves on every node what the
        previous rollback and then the previous ops make of it. */
    method ApplyUpdate(prev: Plan, next: Plan) returns (failed: Option<Node>, removals: nat, restored: bool, ghost half: map<Node, Device>)
      modifies this
      ensures failed.None? && Cleanly(old(calls), old(calls) + removals) && Workable(prev) ==>
        forall n :: DeviceOf(devices, n) == Updated(prev, next, n, DeviceOf(old(devices), n))
      ensures failed.Some? && restored ==>
        forall n :: DeviceOf(devices, n) == Applied(prev, n, RolledBack(prev, n, DeviceOf(half, n)))
      ensures forall n :: n !in prev.nodes && n !in next.nodes ==> DeviceOf(devices, n) == DeviceOf(old(devices), n)
    {
      var stuck;
      restored, half := false, devices;
      stuck, removals := Remove(prev, next);
      if stuck.Some? { return stuck, removals, false, devices; }
      failed := ApplyPlan(next);
      half := devices;
      if failed.Some? { restored := Restore(prev); }
    }

    /** The previous rollback on every node, and then the previous ops; errors are
        noted and not acted on. */
    method Restore(prev: Plan) returns (restored: bool)
      modifies this
      ensures restored ==> forall n :: DeviceOf(devices, n) == Applied(prev, n, RolledBack(prev, n, DeviceOf(old(devices), n)))
      ensures forall n :: n !in prev.nodes ==> DeviceOf(devices, n) == DeviceOf(old(devices), n)
    {
      var dirty := RollbackPlan(prev);
      var again := ApplyPlan(prev);
      restored := dirty.None? && again.None?;
    }

    ghost predicate Cleanly(from: nat, to: nat) {
      forall i :: from <= i < to ==> Clean(i)
    }

    /** The removal: the previous rollback on every node that lost an op. A
        transport error stops it; a rejected rollback is not looked at. */
    method Remove(prev: Plan, next: Plan) returns (stuck: Option<Node>, removals: nat)
      modifies this
      ensures var nodes := RemovalNodes(prev, next);
        && removals <= |nodes| && calls == old(calls) + removals
        && (stuck.None? <==> forall c :: old(calls) <= c < old(calls) + |nodes| ==> answers(c).reached)
        && (stuck.None? ==> removals == |nodes|)
        && (stuck.Some? ==> removals > 0 && stuck.value == nodes[removals - 1])
      ensures stuck.None? && Cleanly(old(calls), old(calls) + removals) && Workable(prev) ==>
        forall n :: DeviceOf(devices, n) == Removed(prev, next, n, DeviceOf(old(devices), n))
      ensures forall n :: !LostAnOp(prev, next, n) ==> DeviceOf(devices, n) == DeviceOf(old(devices), n)
    {
      var removed := DiffPlans(prev, next);
      var nodes := SortedKeys(removed.Keys);
      assert removed.Keys == set n | n in prev.nodes && LostAnOp(prev, next, n);
      LosersAre(prev, next, nodes);
      stuck, removals := RemoveInOrder(prev, nodes);
    }

    method RemoveInOrder(prev: Plan, nodes: seq<Node>) returns (stuck: Option<Node>, removals: nat)
      requires Distinct(nodes) && forall n :: n in nodes ==> n in prev.nodes
      modifies this
      ensures removals <= |nodes| && calls == old(calls) + removals
      ensures stuck.None? <==> forall c :: old(calls) <= c < old(calls) + |nodes| ==> answers(c).reached
      ensures stuck.None? ==> removals == |nodes|
      ensures stuck.Some? ==> removals > 0 && stuck.value == nodes[removals - 1]
      ensures stuck.None? && Cleanly(old(calls), old(calls) + removals) && Workable(prev) ==>
        forall n :: DeviceOf(devices, n) == if n in nodes then RolledBack(prev, n, DeviceOf(old(devices), n)) else DeviceOf(old(devices), n)
      ensures forall n :: n !in nodes ==> DeviceOf(devices, n) == DeviceOf(old(devices), n)
    {
      ghost var want := map n | n in nodes :: RolledBack(prev, n, DeviceOf(devices, n));
      removals, stuck := 0, None;
      for i := 0 to |nodes|
        invariant removals == i && calls == old(calls) + i
        invariant forall c :: old(calls) <= c < calls ==> answers(c).reached
        invariant Cleanly(old(calls), calls) && Workable(prev) ==> Halfway(devices, old(devices), want, nodes, i)
        invariant forall n :: n !in nodes ==> DeviceOf(devices, n) == DeviceOf(old(devices), n)
      {
        var answered := RemoveNext(prev, nodes, i, old(devices), want);
        removals := removals + 1;
        if !answered { return Some(nodes[i]), removals; }
        assert Cleanly(old(calls), calls) ==> Clean(calls - 1);
      }
      if Cleanly(old(calls), calls) && Workable(prev) { HalfwayDone(devices, old(devices), want, nodes); }
    }

    method RemoveNext(prev: Plan, nodes: seq<Node>, i: nat, ghost start: map<Node, Device>, ghost want: map<Node, Device>)
      returns (answered: bool)
      requires Distinct(nodes) && i < |nodes| && nodes[i] in prev.nodes
      requires nodes[i] in want && want[nodes[i]] == RolledBack(prev, nodes[i], DeviceOf(start, nodes[i]))
      modifies this
      ensures calls == old(calls) + 1 && (answered <==> answers(old(calls)).reached)
      ensures Clean(old(calls)) && Workable(prev) && Halfway(old(devices), start, want, nodes, i) ==>
        Halfway(devices, start, want, nodes, i + 1)
      ensures forall n :: n != nodes[i] ==> DeviceOf(devices, n) == DeviceOf(old(devices), n)
    {
      ghost var before := devices;
      answered := RemoveOn(prev, nodes[i]);
      if Clean(calls - 1) && Workable(prev) && Halfway(before, start, want, nodes, i) {
        HalfwayAt(before, start, want, nodes, i);
        HalfwayNext(before, devices, start, want, nodes, i);
      }
    }

    method RemoveOn(prev: Plan, n: Node) returns (answered: bool)
      requires n in prev.nodes
      modifies this
      ensures calls == old(calls) + 1
      ensures answered <==> answers(old(calls)).reached
      ensures Clean(old(calls)) && Workable(prev) ==> answered && DeviceOf(devices, n) == RolledBack(prev, n, DeviceOf(old(devices), n))
      ensures forall m :: m != n ==> DeviceOf(devices, m) == DeviceOf(old(devices), m)
    {
      GoFromMeans(prev.nodes[n].rollback, answers(calls).fails, 0);
      var exec := Apply(n, prev.nodes[n].rollback);
      answered := exec.Accepted? || exec.Rejected?;
    }
  }

  lemma LosersAre(prev: Plan, next: Plan, nodes: seq<Node>)
    requires nodes == RemovalNodes(prev, next)
    ensures forall n :: n in nodes <==> LostAnOp(prev, next, n)
    ensures forall n, d :: Removed(prev, next, n, d) == if n in nodes then RolledBack(prev, n, d) else d
  {
  }

  /** No rollback of the plan holds an empty op. */
  ghost predicate Workable(plan: Plan) {
    forall n, i :: n in plan.nodes && 0 <= i < |plan.nodes[n].rollback| ==> !Empty(plan.nodes[n].rollback[i])
  }

  lemma LostMeans(prev: Plan, next: Plan, n: Node)
    requires n in prev.nodes
    ensures LostAnOp(prev, next, n) <==> Lost(prev, next, n) != []
  {
    WithoutMeans(OpsOn(prev, n), OpsOn(next, n));
    if Lost(prev, next, n) != [] {
      assert Lost(prev, next, n)[0] in Lost(prev, next, n);
    }
  }
}
