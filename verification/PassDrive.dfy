/** Driving one pass: what a stage leads to when every call of it is answered
    alike, however many nodes it walks. */
module PassDrive {
  import opened Text
  import opened ServiceObjects
  import opened PassMachine

  /** Only passes and the log may differ. */
  predicate SameStore(w: World, w': World) {
    w'.objects == w.objects && w'.leases == w.leases && w'.claims == w.claims
  }

  predicate AllSteps(moves: seq<Move>, key: Key, t: Turn) {
    forall i :: 0 <= i < |moves| ==> moves[i] == PassStep(key, t)
  }

  lemma OneMoreStep(rest: seq<Move>, key: Key, t: Turn)
    requires AllSteps(rest, key, t)
    ensures AllSteps([PassStep(key, t)] + rest, key, t) && AllSteps(rest + [PassStep(key, t)], key, t)
  {
  }

  lemma {:induction false} RunConcat(site: Site, w: World, a: seq<Move>, b: seq<Move>)
    ensures Run(site, w, a + b) == Run(site, Run(site, w, a), b)
    decreases |b|
  {
    if b == [] {
      assert a + b == a;
    } else {
      var front, last := b[..|b| - 1], b[|b| - 1];
      RunConcat(site, w, a, front);
      assert (a + b)[..|a + b| - 1] == a + front && (a + b)[|a + b| - 1] == last;
    }
  }

  lemma RunOne(site: Site, w: World, m: Move)
    ensures Run(site, w, [m]) == Apply(site, w, m)
  {
    assert [m][..0] == [];
    assert Run(site, w, []) == w;
  }

  lemma RunCons(site: Site, w: World, m: Move, rest: seq<Move>)
    ensures Run(site, w, [m] + rest) == Run(site, Apply(site, w, m), rest)
  {
    RunConcat(site, w, [m], rest);
    RunOne(site, w, m);
  }

  lemma RunParts(site: Site, w: World, m: Move, a: seq<Move>, b: seq<Move>)
    ensures Run(site, w, [m] + (a + b)) == Run(site, Run(site, Apply(site, w, m), a), b)
  {
    RunCons(site, w, m, a + b);
    RunConcat(site, Apply(site, w, m), a, b);
  }

  /** No call on a node is added. */
  ghost predicate NoCalls(log: seq<Event>, log': seq<Event>) {
    |log| <= |log'| && log'[..|log|] == log && forall i :: |log| <= i < |log'| ==> !log'[i].ApplyCall?
  }

  lemma NoCallsOn(a: seq<Event>, b: seq<Event>, c: seq<Event>)
    requires NoCalls(a, b) && NoCalls(b, c)
    ensures NoCalls(a, c)
  {
    forall i | |a| <= i < |c| ensures !c[i].ApplyCall? {
      if i < |b| { assert c[i] == c[..|b|][i] == b[i]; }
    }
    assert c[..|a|] == c[..|b|][..|a|];
  }

  lemma OneWrite(log: seq<Event>, e: Event)
    requires !e.ApplyCall?
    ensures NoCalls(log, log + [e])
  {
  }

  /** The accepted calls of an apply and of a removal. */
  function ApplyLog(key: Key, plan: Plan, todo: seq<Node>): seq<Event> {
    if todo == [] then [] else [ApplyCall(key, todo[0], OpsOn(plan, todo[0]), Accepted)] + ApplyLog(key, plan, todo[1..])
  }

  function RollbackLog(key: Key, prev: Plan, todo: seq<Node>): seq<Event> {
    if todo == [] then [] else [ApplyCall(key, todo[0], RollbackOn(prev, todo[0]), Accepted)] + RollbackLog(key, prev, todo[1..])
  }

  /** The calls of an update that goes through. */
  function UpdateLog(key: Key, prev: Plan, next: Plan): seq<Event> {
    RollbackLog(key, prev, RemovalNodes(prev, next)) + ApplyLog(key, next, PlanOrder(next))
  }

  /** Every node takes its ops. */
  lemma {:induction false} DriveApply(site: Site, w: World, key: Key, t: Turn, work: Work, plan: Plan, todo: seq<Node>, mode: ApplyMode)
    returns (moves: seq<Move>)
    requires PassOf(w, key) == GoApply(site, work, plan, todo, mode, t.now) && t.exec.Accepted?
    ensures AllSteps(moves, key, t)
    ensures var w' := Run(site, w, moves);
      SameStore(w, w') && w'.log == w.log + ApplyLog(key, plan, todo) && PassOf(w', key) == GoApply(site, work, plan, [], mode, t.now)
    decreases |todo|
  {
    if todo == [] {
      moves := [];
    } else {
      var w1 := StepApplying(site, w, key, work, plan, todo, mode, t);
      assert Step(site, w, key, t) == w1;
      LogOn(w.log, w1.log, ApplyCall(key, todo[0], OpsOn(plan, todo[0]), Accepted), ApplyLog(key, plan, todo[1..]));
      hide Run, GoApply, ApplyLog;
      var rest := DriveApply(site, w1, key, t, work, plan, todo[1..], mode);
      moves := [PassStep(key, t)] + rest;
      OneMoreStep(rest, key, t);
      RunCons(site, w, PassStep(key, t), rest);
    }
  }

  lemma LogOn(log: seq<Event>, log1: seq<Event>, e: Event, rest: seq<Event>)
    requires log1 == log + [e]
    ensures log1 + rest == log + ([e] + rest)
  {
  }

  /** Every node that lost an op answers its removal. */
  lemma {:induction false} DriveRemove(site: Site, w: World, key: Key, t: Turn, work: Work, prev: Plan, todo: seq<Node>)
    returns (moves: seq<Move>)
    requires PassOf(w, key) == GoRemove(site, work, prev, todo, t.now) && t.exec.Accepted?
    ensures AllSteps(moves, key, t)
    ensures var w' := Run(site, w, moves);
      SameStore(w, w') && w'.log == w.log + RollbackLog(key, prev, todo)
      && PassOf(w', key) == GoApply(site, work, work.plan, work.order, UpdateApply(prev), t.now)
    decreases |todo|
  {
    if todo == [] {
      moves := [];
    } else {
      var w1 := StepRemoving(site, w, key, work, prev, todo, t);
      assert Step(site, w, key, t) == w1;
      LogOn(w.log, w1.log, ApplyCall(key, todo[0], RollbackOn(prev, todo[0]), Accepted), RollbackLog(key, prev, todo[1..]));
      hide Run, GoRemove, GoApply, RollbackLog;
      var rest := DriveRemove(site, w1, key, t, work, prev, todo[1..]);
      moves := [PassStep(key, t)] + rest;
      OneMoreStep(rest, key, t);
      RunCons(site, w, PassStep(key, t), rest);
    }
  }

  /** Every node answers its rollback. */
  lemma {:induction false} DriveRoll(site: Site, w: World, key: Key, t: Turn, work: Work, plan: Plan, todo: seq<Node>, mode: RollMode)
    returns (moves: seq<Move>)
    requires PassOf(w, key) == GoRoll(site, work, plan, todo, mode, t.now) && t.exec.Accepted?
    ensures AllSteps(moves, key, t)
    ensures var w' := Run(site, w, moves);
      SameStore(w, w') && w'.log == w.log + RollbackLog(key, plan, todo) && PassOf(w', key) == GoRoll(site, work, plan, [], mode, t.now)
    decreases |todo|
  {
    if todo == [] {
      moves := [];
    } else {
      var w1 := StepRollingBack(site, w, key, work, plan, todo, mode, t);
      assert Step(site, w, key, t) == w1;
      LogOn(w.log, w1.log, ApplyCall(key, todo[0], RollbackOn(plan, todo[0]), Accepted), RollbackLog(key, plan, todo[1..]));
      hide Run, GoRoll, RollbackLog;
      var rest := DriveRoll(site, w1, key, t, work, plan, todo[1..], mode);
      moves := [PassStep(key, t)] + rest;
      OneMoreStep(rest, key, t);
      RunCons(site, w, PassStep(key, t), rest);
    }
  }

  function AllSeen(todo: seq<Node>): seq<NodeStatus> {
    if todo == [] then [] else [NodeStatus(todo[0], true)] + AllSeen(todo[1..])
  }

  /** Every node verifies. */
  lemma {:induction false} DriveVerify(site: Site, w: World, key: Key, t: Turn, work: Work, todo: seq<Node>, seen: seq<NodeStatus>, mode: VerifyMode)
    returns (moves: seq<Move>)
    requires PassOf(w, key) == GoVerify(site, work, todo, seen, mode, t.now) && t.verify.Passed?
    ensures AllSteps(moves, key, t)
    ensures var w' := Run(site, w, moves);
      SameStore(w, w') && w'.log == w.log && PassOf(w', key) == AfterVerify(site, work, seen + AllSeen(todo), None, mode, t.now)
    decreases |todo|
  {
    if todo == [] {
      moves := [];
      assert seen + AllSeen(todo) == seen;
    } else {
      var seen' := seen + [NodeStatus(todo[0], true)];
      var w1 := StepVerifying(site, w, key, work, todo, seen, mode, t);
      assert Step(site, w, key, t) == w1;
      assert seen' + AllSeen(todo[1..]) == seen + AllSeen(todo);
      hide Run, GoVerify, AfterVerify, AllSeen;
      var rest := DriveVerify(site, w1, key, t, work, todo[1..], seen', mode);
      moves := [PassStep(key, t)] + rest;
      OneMoreStep(rest, key, t);
      RunCons(site, w, PassStep(key, t), rest);
    }
  }

  function Looked(work: Work, seen: seq<NodeStatus>): Work {
    work.(svc := work.svc.(status := work.svc.status.(nodes := seen)))
  }

  /** The spine the path stage reports. */
  function SpineSeen(site: Site, work: Work, spine: string): string {
    if site.steerable(work.svc.spec, work.order) then spine else ""
  }

  /** From a clean verify to the ready stage, past the path stage if there is one. */
  lemma DriveToReady(site: Site, w: World, key: Key, t: Turn, work: Work, seen: seq<NodeStatus>) returns (moves: seq<Move>)
    requires PassOf(w, key) == AfterVerify(site, work, seen, None, PlainVerify, t.now) && t.path.Rides?
    ensures AllSteps(moves, key, t)
    ensures var w' := Run(site, w, moves); var work' := Looked(work, seen);
      SameStore(w, w') && w'.log == w.log && PassOf(w', key) == GoReady(site, work', SpineSeen(site, work', t.path.spine), t.now)
  {
    var work' := Looked(work, seen);
    if site.steerable(work'.svc.spec, work'.order) {
      moves := [PassStep(key, t)];
      RunOne(site, w, PassStep(key, t));
      assert Step(site, w, key, t) == StepObserving(site, w, key, work', None, t);
    } else {
      moves := [];
    }
  }

  /** From the start of the verify to the ready stage. */
  lemma DriveCheck(site: Site, w: World, key: Key, t: Turn, work: Work) returns (moves: seq<Move>)
    requires PassOf(w, key) == GoVerify(site, work, work.order, [], PlainVerify, t.now) && t.verify.Passed? && t.path.Rides?
    ensures AllSteps(moves, key, t)
    ensures var w' := Run(site, w, moves); var work' := Looked(work, AllSeen(work.order));
      SameStore(w, w') && w'.log == w.log && PassOf(w', key) == GoReady(site, work', SpineSeen(site, work', t.path.spine), t.now)
  {
    hide Run, GoVerify, GoReady, AfterVerify, PassOf;
    var first := DriveVerify(site, w, key, t, work, work.order, [], PlainVerify);
    assert [] + AllSeen(work.order) == AllSeen(work.order);
    var second := DriveToReady(site, Run(site, w, first), key, t, work, AllSeen(work.order));
    moves := first + second;
    RunConcat(site, w, first, second);
  }

  /** The data-path stamp the ready stage records. */
  function Stamp(work: Work, now: int): Option<int> {
    if work.svc.status.dataPath.Some? then work.svc.status.dataPath else Some(now)
  }

  /** On to the record, past the first activation's probe if it is still to come. */
  lemma DriveRecord(site: Site, w: World, key: Key, t: Turn, work: Work) returns (moves: seq<Move>)
    requires PassOf(w, key) == GoVerify(site, work, work.order, [], PlainVerify, t.now)
    requires t.verify.Passed? && t.path.Rides? && t.probe.ProbePasses?
    ensures AllSteps(moves, key, t)
    ensures var w' := Run(site, w, moves); var work' := Looked(work, AllSeen(work.order));
      && SameStore(w, w') && w'.log == w.log
      && PassOf(w', key) == GoRecord(site, work', Stamp(work, t.now), SpineSeen(site, work', t.path.spine), t.now)
  {
    hide Run, GoVerify, Apply;
    var first := DriveCheck(site, w, key, t, work);
    var w1, looked := Run(site, w, first), Looked(work, AllSeen(work.order));
    moves := first;
    if work.svc.status.dataPath.None? {
      ProbeGoes(site, w1, key, t, looked, SpineSeen(site, looked, t.path.spine));
      RunConcat(site, w, first, [PassStep(key, t)]);
      RunOne(site, w1, PassStep(key, t));
      OneMoreStep(first, key, t);
      moves := first + [PassStep(key, t)];
    }
  }

  lemma ProbeGoes(site: Site, w: World, key: Key, t: Turn, work: Work, active: string)
    requires PassOf(w, key) == GoReady(site, work, active, t.now) && work.svc.status.dataPath.None? && t.probe.ProbePasses?
    ensures var w' := Apply(site, w, PassStep(key, t));
      SameStore(w, w') && w'.log == w.log && PassOf(w', key) == GoRecord(site, work, Some(t.now), active, t.now)
  {
    hide GoRecord;
    assert Step(site, w, key, t) == StepProbing(site, w, key, work, active, t);
  }
}
