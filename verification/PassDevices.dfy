/** The calls of a run read as writes on the nodes. An accepted call lands whole;
    of any other call any part may have landed. */
module PassDevices {
  import opened Text
  import opened ServiceObjects
  import opened PassMachine
  import opened PassApplied
  import opened PassDrive
  import opened Devices
  import opened Fabric

  /** The writes of a call that landed, given how many did if it was not accepted. */
  function Landed(e: Event, cut: nat): seq<Atom>
    requires e.ApplyCall?
  {
    var writes := Atoms(e.ops);
    if e.answer.Accepted? || cut >= |writes| then writes else writes[..cut]
  }

  /** What the calls of everybody leave on a node that held nothing. */
  function Held(log: seq<Event>, n: Node, cuts: nat -> nat): Device
    decreases |log|
  {
    if log == [] then map[]
    else
      var d, e := Held(log[..|log| - 1], n, cuts), log[|log| - 1];
      if e.ApplyCall? && e.node == n then DoAll(d, Landed(e, cuts(|log| - 1))) else d
  }

  lemma HeldNext(log: seq<Event>, e: Event, n: Node, cuts: nat -> nat)
    ensures Held(log + [e], n, cuts) ==
      if e.ApplyCall? && e.node == n then DoAll(Held(log, n, cuts), Landed(e, cuts(|log|))) else Held(log, n, cuts)
  {
    assert (log + [e])[..|log|] == log;
  }

  /** Since its own last call on the node, nobody else's call there touches the cell. */
  predicate Spared(log: seq<Event>, key: Key, n: Node, c: Cell)
    decreases |log|
  {
    log == [] ||
      var e := log[|log| - 1];
      CallsOn(e, key, n) || ((e.ApplyCall? && e.node == n ==> Verdicts(Atoms(e.ops), c) == Untouched) && Spared(log[..|log| - 1], key, n, c))
  }

  lemma CutUntouched(writes: seq<Atom>, cut: nat, c: Cell)
    requires Verdicts(writes, c) == Untouched && cut <= |writes|
    ensures Verdicts(writes[..cut], c) == Untouched
  {
    VerdictsConcat(writes[..cut], writes[cut..], c);
    assert writes[..cut] + writes[cut..] == writes;
  }

  /** The service's last call on a node decides every cell it touches. */
  lemma {:induction false} LastCallDecides(log: seq<Event>, key: Key, n: Node, cuts: nat -> nat, c: Cell)
    requires Spared(log, key, n, c)
    requires var call := LastCall(log, key, n); call.Some? && call.value.ApplyCall? && call.value.answer.Accepted? && Verdicts(Atoms(call.value.ops), c).Left?
    ensures Look(Held(log, n, cuts), c) == Verdicts(Atoms(LastCall(log, key, n).value.ops), c).entry
    decreases |log|
  {
    var before, e := log[..|log| - 1], log[|log| - 1];
    if CallsOn(e, key, n) {
      LastWriterWins(Held(before, n, cuts), Atoms(e.ops), c);
    } else {
      LastCallDecides(before, key, n, cuts, c);
      if e.ApplyCall? && e.node == n {
        var cut := cuts(|log| - 1);
        if cut < |Atoms(e.ops)| { CutUntouched(Atoms(e.ops), cut, c); }
        LastWriterWins(Held(before, n, cuts), Landed(e, cut), c);
      }
    }
  }

  /** With truthful answers, in every run: while nothing has left a recorded node off
      its record, the node holds every entry of the recorded ops, whatever landed of
      the calls that were not accepted, unless another service has touched it since. */
  lemma RecordIsHeld(site: Site, moves: seq<Move>, key: Key, n: Node, ops: seq<Op>, cuts: nat -> nat, c: Cell)
    requires SiteOk(site) && forall a, b :: site.hash(a) == site.hash(b) ==> a == b
    requires var w := Run(site, EmptyWorld, moves);
      && RecordedOn(w, key, n) && w.objects[key].status.configHashes[n] == site.hash(ops)
      && Makes(ops, c) && Spared(w.log, key, n, c)
    requires !(exists i: nat :: LeftOff(site, moves, key, n, i))
    ensures Look(Held(Run(site, EmptyWorld, moves).log, n, cuts), c) == EntryLeft(ops, c)
  {
    RecordIsLastApplied(site, moves, key, n);
    LastCallDecides(Run(site, EmptyWorld, moves).log, key, n, cuts, c);
  }

  // ---- the calls of one stage ------------------------------------------------------------------

  lemma {:induction false} HeldOff(log: seq<Event>, key: Key, plan: Plan, todo: seq<Node>, n: Node, cuts: nat -> nat)
    requires n !in todo
    ensures Held(log + ApplyLog(key, plan, todo), n, cuts) == Held(log, n, cuts)
    ensures Held(log + RollbackLog(key, plan, todo), n, cuts) == Held(log, n, cuts)
    decreases |todo|
  {
    if todo == [] {
      assert log + [] == log;
    } else {
      var a, r := ApplyCall(key, todo[0], OpsOn(plan, todo[0]), Accepted), ApplyCall(key, todo[0], RollbackOn(plan, todo[0]), Accepted);
      HeldNext(log, a, n, cuts);
      HeldNext(log, r, n, cuts);
      HeldOff(log + [a], key, plan, todo[1..], n, cuts);
      HeldOff(log + [r], key, plan, todo[1..], n, cuts);
      LogOn(log, log + [a], a, ApplyLog(key, plan, todo[1..]));
      LogOn(log, log + [r], r, RollbackLog(key, plan, todo[1..]));
    }
  }

  lemma {:induction false} HeldApplied(log: seq<Event>, key: Key, plan: Plan, todo: seq<Node>, n: Node, cuts: nat -> nat)
    requires n in todo && Distinct(todo)
    ensures Held(log + ApplyLog(key, plan, todo), n, cuts) == Applied(plan, n, Held(log, n, cuts))
    decreases |todo|
  {
    var e := ApplyCall(key, todo[0], OpsOn(plan, todo[0]), Accepted);
    HeldNext(log, e, n, cuts);
    LogOn(log, log + [e], e, ApplyLog(key, plan, todo[1..]));
    if n == todo[0] {
      HeldOff(log + [e], key, plan, todo[1..], n, cuts);
    } else {
      HeldApplied(log + [e], key, plan, todo[1..], n, cuts);
    }
  }

  lemma {:induction false} HeldRolledBack(log: seq<Event>, key: Key, plan: Plan, todo: seq<Node>, n: Node, cuts: nat -> nat)
    requires n in todo && n in plan.nodes && Distinct(todo)
    ensures Held(log + RollbackLog(key, plan, todo), n, cuts) == RolledBack(plan, n, Held(log, n, cuts))
    decreases |todo|
  {
    var e := ApplyCall(key, todo[0], RollbackOn(plan, todo[0]), Accepted);
    HeldNext(log, e, n, cuts);
    LogOn(log, log + [e], e, RollbackLog(key, plan, todo[1..]));
    if n == todo[0] {
      HeldOff(log + [e], key, plan, todo[1..], n, cuts);
    } else {
      HeldRolledBack(log + [e], key, plan, todo[1..], n, cuts);
    }
  }

  lemma HeldUpdated(log: seq<Event>, key: Key, prev: Plan, next: Plan, n: Node, cuts: nat -> nat)
    requires n in next.nodes
    ensures Held(log + UpdateLog(key, prev, next), n, cuts) == Updated(prev, next, n, Held(log, n, cuts))
  {
    var removal := RollbackLog(key, prev, RemovalNodes(prev, next));
    assert log + UpdateLog(key, prev, next) == (log + removal) + ApplyLog(key, next, PlanOrder(next));
    HeldApplied(log + removal, key, next, PlanOrder(next), n, cuts);
    if LostAnOp(prev, next, n) {
      HeldRolledBack(log, key, prev, RemovalNodes(prev, next), n, cuts);
    } else {
      HeldOff(log, key, prev, RemovalNodes(prev, next), n, cuts);
    }
  }

  /** The last of the calls of one stage on a node. */
  lemma {:induction false} LastOfApply(log: seq<Event>, key: Key, plan: Plan, todo: seq<Node>, n: Node)
    ensures LastCall(log + ApplyLog(key, plan, todo), key, n) ==
      if n in todo then Some(ApplyCall(key, n, OpsOn(plan, n), Accepted)) else LastCall(log, key, n)
    decreases |todo|
  {
    if todo == [] {
      assert log + [] == log;
    } else {
      var e := ApplyCall(key, todo[0], OpsOn(plan, todo[0]), Accepted);
      LastCallNext(log, e, key, n);
      LastOfApply(log + [e], key, plan, todo[1..], n);
      LogOn(log, log + [e], e, ApplyLog(key, plan, todo[1..]));
    }
  }

  lemma {:induction false} LastOfRollback(log: seq<Event>, key: Key, plan: Plan, todo: seq<Node>, n: Node)
    ensures LastCall(log + RollbackLog(key, plan, todo), key, n) ==
      if n in todo then Some(ApplyCall(key, n, RollbackOn(plan, n), Accepted)) else LastCall(log, key, n)
    decreases |todo|
  {
    if todo == [] {
      assert log + [] == log;
    } else {
      var e := ApplyCall(key, todo[0], RollbackOn(plan, todo[0]), Accepted);
      LastCallNext(log, e, key, n);
      LastOfRollback(log + [e], key, plan, todo[1..], n);
      LogOn(log, log + [e], e, RollbackLog(key, plan, todo[1..]));
    }
  }
}
