/** Reconcile as the sequential code it is, with whatever else happens between
    its calls. Each method drives the store and the executor call by call; what
    it leaves behind is a run of the pass machine, so everything proved of those
    runs holds of this code. */
module Reconciler {
  import opened Text
  import opened ServiceObjects
  import opened PassMachine
  import opened PassInvariant
  import opened PassRuns

  /** What others do before a call is served, and how the call is answered. */
  datatype Beat = Beat(before: seq<Move>, turn: Turn)

  /** Where the first read leaves a pass. */
  datatype Begun =
    | Nothing
    | Deleting(svc: Service, plan: Plan, order: seq<Node>)
    | Unfinalized
    | Refused(svc: Service, kind: Kind)
    | Reused(svc: Service, alloc: Allocations)
    | Unclaimed(svc: Service)

  datatype Created = Won | Exists | Errs

  ghost predicate Link(site: Site, worlds: seq<World>, moves: seq<Move>, i: nat)
    requires |worlds| == |moves| + 1 && i < |moves|
  {
    worlds[i + 1] == Apply(site, worlds[i], moves[i])
  }

  /** Each move leads from one world to the next. */
  ghost predicate Chained(site: Site, worlds: seq<World>, moves: seq<Move>) {
    |worlds| == |moves| + 1 && forall i :: 0 <= i < |moves| ==> Link(site, worlds, moves, i)
  }

  lemma WithRollbackStep(plan: Plan, order: seq<Node>)
    requires order != [] && forall n :: n in order ==> n in plan.nodes
    ensures plan.nodes[order[0]].rollback == [] ==> WithRollback(plan, order) == WithRollback(plan, order[1..])
    ensures plan.nodes[order[0]].rollback != [] ==>
              WithRollback(plan, order) == [order[0]] + WithRollback(plan, order[1..])
              && WithRollback(plan, order)[1..] == WithRollback(plan, order[1..])
  {
    var rest := WithRollback(plan, order[1..]);
    assert ([order[0]] + rest)[1..] == rest;
    assert [] + rest == rest;
  }

  /** The next object of a list. */
  method AnyOf<T>(s: set<T>) returns (v: T)
    requires s != {}
    ensures v in s
  {
    v :| v in s;
  }

  lemma ChainedOne(site: Site, worlds: seq<World>, moves: seq<Move>, m: Move)
    requires Chained(site, worlds, moves)
    ensures Chained(site, worlds + [Apply(site, worlds[|moves|], m)], moves + [m])
  {
    var worlds', moves' := worlds + [Apply(site, worlds[|moves|], m)], moves + [m];
    forall i | 0 <= i < |moves'| ensures Link(site, worlds', moves', i) {
      if i < |moves| { assert Link(site, worlds, moves, i); }
    }
  }

  lemma {:induction false} ChainedIsRun(site: Site, worlds: seq<World>, moves: seq<Move>)
    requires Chained(site, worlds, moves)
    ensures worlds[|moves|] == Run(site, worlds[0], moves)
    decreases |moves|
  {
    if moves != [] {
      var n := |moves| - 1;
      var ws, ms := worlds[..n + 1], moves[..n];
      forall i | 0 <= i < n ensures Link(site, ws, ms, i) {
        assert Link(site, worlds, moves, i);
      }
      ChainedIsRun(site, ws, ms);
      assert Link(site, worlds, moves, n);
    }
  }

  class Worker {
    const site: Site
    const key: Key
    /** The world outside: one beat for each call. */
    const beats: nat -> Beat
    /** The shared store and log; this worker writes its own program counter
        into `world.passes[key]` and never reads it. */
    var world: World
    var clock: nat
    var now: int
    /** The run so far: the moves, and the worlds they lead through. */
    ghost var moves: seq<Move>
    ghost var worlds: seq<World>
    ghost const origin: World

    /** One worker serves an object at a time. */
    ghost predicate Alone() {
      forall i: nat, m :: m in beats(i).before ==> !(m.PassStep? && m.key == key)
    }

    ghost predicate Valid()
      reads this
    {
      SiteOk(site) && Alone() && Inv(site, world) && Chained(site, worlds, moves)
      && origin == worlds[0] && world == worlds[|moves|]
    }

    function Pc(): Pass
      reads this
    {
      PassOf(world, key)
    }

    constructor (s: Site, k: Key, outside: nat -> Beat, w: World)
      requires SiteOk(s) && Inv(s, w)
      requires forall i: nat, m :: m in outside(i).before ==> !(m.PassStep? && m.key == k)
      ensures Valid() && site == s && key == k && beats == outside
      ensures world == w && origin == w && moves == [] && clock == 0
    {
      site, key, beats, world, clock, now := s, k, outside, w, 0, 0;
      moves, worlds, origin := [], [w], w;
    }

    /** Others act until the next call of this worker is answered. */
    method Await() returns (turn: Turn)
      requires Valid()
      modifies this
      ensures Valid() && Pc() == old(Pc()) && old(moves) <= moves
      ensures turn == beats(old(clock)).turn && now == turn.now
    {
      var before := beats(clock).before;
      turn := beats(clock).turn;
      clock := clock + 1;
      now := turn.now;
      for i := 0 to |before|
        invariant Valid() && Pc() == old(Pc()) && old(moves) <= moves
        invariant now == turn.now
      {
        Other(before[i]);
      }
    }

    /** One move of another. */
    method Other(m: Move)
      requires Valid() && !(m.PassStep? && m.key == key)
      modifies this`world, this`moves, this`worlds
      ensures Valid() && Pc() == old(Pc()) && old(moves) <= moves
    {
      OtherMove(site, world, m, key);
      ApplyOk(site, world, m);
      ChainedOne(site, worlds, moves, m);
      world := Apply(site, world, m);
      moves, worlds := moves + [m], worlds + [world];
    }

    /** The call answered by `t` leaves the world as `w`. */
    method Commit(t: Turn, w: World)
      requires Valid() && w == Step(site, world, key, t)
      modifies this`world, this`moves, this`worlds
      ensures Valid() && world == w && moves == old(moves) + [PassStep(key, t)]
    {
      var m := PassStep(key, t);
      ApplyOk(site, world, m);
      ChainedOne(site, worlds, moves, m);
      world := w;
      moves, worlds := moves + [m], worlds + [world];
    }

    // ---- the executor and API calls ------------------------------------------------

    method CallApply(work: Work, plan: Plan, todo: seq<Node>, mode: ApplyMode) returns (accepted: bool)
      requires Valid() && todo != [] && todo[0] in plan.nodes && Pc() == Applying(work, plan, todo, mode)
      modifies this
      ensures Valid() && old(moves) <= moves
      ensures Pc() == if accepted then GoApply(site, work, plan, todo[1..], mode, now) else GoFailedApply(site, work, mode, now)
    {
      var t := Await();
      accepted := t.exec.Accepted?;
      var pc := if accepted then GoApply(site, work, plan, todo[1..], mode, now) else GoFailedApply(site, work, mode, now);
      Commit(t, At(Log(world, ApplyCall(key, todo[0], plan.nodes[todo[0]].ops, t.exec)), key, pc));
    }

    method CallRollback(work: Work, plan: Plan, node: Node, todo: seq<Node>, mode: RollMode)
      requires Valid() && todo != [] && node == todo[0] && node in plan.nodes && Pc() == RollingBack(work, plan, todo, mode)
      modifies this
      ensures Valid() && old(moves) <= moves
      ensures Pc() == GoRoll(site, work, plan, todo[1..], mode, now)
    {
      var t := Await();
      Commit(t, At(Log(world, ApplyCall(key, node, plan.nodes[node].rollback, t.exec)), key,
                   GoRoll(site, work, plan, todo[1..], mode, now)));
    }

    method CallRemove(work: Work, prev: Plan, todo: seq<Node>) returns (answered: bool)
      requires Valid() && todo != [] && todo[0] in prev.nodes && Pc() == Removing(work, prev, todo)
      modifies this
      ensures Valid() && old(moves) <= moves
      ensures Pc() == if answered then GoRemove(site, work, prev, todo[1..], now) else Refusing(work.svc, ApplyKind)
    {
      var t := Await();
      answered := t.exec.Accepted? || t.exec.Rejected?;
      var pc := if answered then GoRemove(site, work, prev, todo[1..], now) else Refusing(work.svc, ApplyKind);
      Commit(t, At(Log(world, ApplyCall(key, todo[0], prev.nodes[todo[0]].rollback, t.exec)), key, pc));
    }

    method CallFinalRollback(svc: Service, plan: Plan, todo: seq<Node>, dirty: set<Node>) returns (dirty': set<Node>)
      requires Valid() && todo != [] && todo[0] in plan.nodes && Pc() == FinalRollback(svc, plan, todo, dirty)
      modifies this
      ensures Valid() && old(moves) <= moves
      ensures Pc() == GoFinalRollback(svc, plan, todo[1..], dirty')
    {
      var t := Await();
      dirty' := if t.exec.Unreachable? then dirty + {todo[0]} else dirty;
      Commit(t, At(Log(world, ApplyCall(key, todo[0], plan.nodes[todo[0]].rollback, t.exec)), key,
                   GoFinalRollback(svc, plan, todo[1..], dirty')));
    }

    // ---- apply.go ------------------------------------------------------------------

    /** applyPlan: in plan order; the first node that does not accept ends it. */
    method ApplyPlan(work: Work, plan: Plan, mode: ApplyMode) returns (failed: bool)
      requires Valid() && Pc() == GoApply(site, work, plan, PlanOrder(plan), mode, now)
      modifies this
      ensures Valid() && old(moves) <= moves
      ensures Pc() == if failed then GoFailedApply(site, work, mode, now) else GoApply(site, work, plan, [], mode, now)
    {
      var todo := PlanOrder(plan);
      while todo != []
        invariant Valid() && old(moves) <= moves
        invariant forall n :: n in todo ==> n in plan.nodes
        invariant Pc() == GoApply(site, work, plan, todo, mode, now)
      {
        var accepted := CallApply(work, plan, todo, mode);
        if !accepted { return true; }
        todo := todo[1..];
      }
      failed := false;
    }

    /** rollbackPlan: every node that has a rollback, whatever it answers. */
    method RollbackPlan(work: Work, plan: Plan, mode: RollMode)
      requires Valid() && Pc() == GoRoll(site, work, plan, WithRollback(plan, PlanOrder(plan)), mode, now)
      modifies this
      ensures Valid() && old(moves) <= moves
      ensures Pc() == GoRoll(site, work, plan, [], mode, now)
    {
      hide Valid;
      var order := PlanOrder(plan);
      ghost var todo := WithRollback(plan, order);
      while order != []
        invariant Valid() && old(moves) <= moves
        invariant forall n :: n in order ==> n in plan.nodes
        invariant todo == WithRollback(plan, order)
        invariant Pc() == GoRoll(site, work, plan, todo, mode, now)
      {
        WithRollbackStep(plan, order);
        if plan.nodes[order[0]].rollback != [] {
          CallRollback(work, plan, order[0], WithRollback(plan, order), mode);
          todo := todo[1..];
        }
        order := order[1..];
      }
    }

    // ---- verify.go, path.go, datapath.go -------------------------------------------

    /** One node: the locator probe, then the plan's checks. */
    method CallVerify(work: Work, todo: seq<Node>, seen: seq<NodeStatus>, mode: VerifyMode)
      returns (st: NodeStatus, failed: Option<Kind>)
      requires Valid() && todo != [] && Pc() == Verifying(work, todo, seen, mode)
      modifies this
      ensures Valid() && old(moves) <= moves
      ensures Pc() == if failed.None? then GoVerify(site, work, todo[1..], seen + [st], mode, now)
                      else AfterVerify(site, work, seen + [st], failed, mode, now)
    {
      var t := Await();
      st := NodeStatus(todo[0], t.verify.Passed?);
      failed := match t.verify case Passed => None case LocatorGone => Some(LocatorKind) case _ => Some(CheckKind);
      var pc := if failed.None? then GoVerify(site, work, todo[1..], seen + [st], mode, now)
                else AfterVerify(site, work, seen + [st], failed, mode, now);
      Commit(t, At(world, key, pc));
    }

    /** verifyPlan: in plan order, to the first refusal; the status list covers
        the nodes looked at. */
    method VerifyPlan(work: Work, mode: VerifyMode) returns (seen: seq<NodeStatus>, failed: Option<Kind>)
      requires Valid() && Pc() == GoVerify(site, work, work.order, [], mode, now)
      modifies this
      ensures Valid() && old(moves) <= moves
      ensures Pc() == AfterVerify(site, work, seen, failed, mode, now)
    {
      seen, failed := [], None;
      var todo := work.order;
      while todo != []
        invariant Valid() && old(moves) <= moves && failed.None?
        invariant Pc() == GoVerify(site, work, todo, seen, mode, now)
      {
        var st;
        st, failed := CallVerify(work, todo, seen, mode);
        seen := seen + [st];
        if failed.Some? { return; }
        todo := todo[1..];
      }
    }

    /** observePath: the spine the pin rides; an unread table is a transient error. */
    method CallObserve(work: Work, failed: Option<Kind>) returns (path: PathAnswer, skipRepair: bool)
      requires Valid() && Pc() == Observing(work, failed)
      modifies this
      ensures Valid() && old(moves) <= moves
      ensures path.Unread? ==> Pc() == Idle
      ensures path.NoLeg? ==> Pc() == Refusing(work.svc, PathKind)
      ensures path.Rides? && skipRepair ==> Pc() == AfterPath(site, work.(skipRepair := true), None, path.spine, now)
      ensures path.Rides? && !skipRepair ==> Pc() == AfterPath(site, work, failed, path.spine, now)
    {
      var t := Await();
      path := t.path;
      skipRepair := path.Rides? && failed == Some(CheckKind) && path.spine != "" && path.spine != work.svc.spec.preferredSpine;
      var pc := match path
        case Unread => Idle
        case NoLeg => Refusing(work.svc, PathKind)
        case Rides(spine) => if skipRepair then AfterPath(site, work.(skipRepair := true), None, spine, now)
                             else AfterPath(site, work, failed, spine, now);
      Commit(t, At(world, key, pc));
    }

    method CallProbe(work: Work, active: string) returns (answer: ProbeAnswer)
      requires Valid() && Pc() == Probing(work, active)
      modifies this
      ensures Valid() && old(moves) <= moves
      ensures answer.ProbePasses? ==> Pc() == GoRecord(site, work, Some(now), active, now)
      ensures answer.ProbeFails? ==> Pc() == Refusing(work.svc, DataPathKind)
      ensures answer.ProbeErrs? ==> Pc() == Idle
    {
      hide GoRecord;
      var t := Await();
      answer := t.probe;
      var pc := match answer
        case ProbePasses => GoRecord(site, work, Some(now), active, now)
        case ProbeFails => Refusing(work.svc, DataPathKind)
        case ProbeErrs => Idle;
      Commit(t, At(world, key, pc));
    }

    // ---- status writes -------------------------------------------------------------

    /** refuse: the Ready/Degraded pair, written over a snapshot of the local object. */
    method Refuse(svc: Service, kind: Kind)
      requires Valid() && Pc() == Refusing(svc, kind)
      modifies this
      ensures Valid() && old(moves) <= moves && Pc() == Idle
    {
      var t := Await();
      var next := SetRefusal(svc.status, svc.generation, kind, now);
      Commit(t, At(WriteStatus(world, key, svc.status, next, t.api), key, Idle));
    }

    /** patchDriftObserved: best effort; the local object carries the pair either way. */
    method PatchDriftObserved(work: Work, active: string) returns (work': Work)
      requires Valid() && Pc() == NotingDrift(work, active)
      modifies this
      ensures Valid() && old(moves) <= moves
      ensures work' == work.(svc := work'.svc)
      ensures Pc() == GoApply(site, work', work'.plan, work'.order, DriftApply(active), now)
    {
      hide GoApply, SetRefusal, MergePatch;
      var t := Await();
      var base := work.svc.status;
      var next := SetRefusal(base, work.svc.generation, CheckKind, now);
      var w := WriteStatus(world, key, base, next, t.api);
      work' := work.(svc := if key in world.objects && t.api.Done? then w.objects[key] else work.svc.(status := next));
      Commit(t, At(w, key, GoApply(site, work', work'.plan, work'.order, DriftApply(active), now)));
    }

    /** The status write inside applyUpdate; on success the response is the new
        local object. */
    method CallRecordUpdate(work: Work, since: int) returns (svc: Service, written: bool)
      requires Valid() && Pc() == RecordingUpdate(work, since)
      modifies this
      ensures Valid() && old(moves) <= moves
      ensures Pc() == if written then GoVerify(site, work.(svc := svc), work.order, [], PlainVerify, now)
                      else Refusing(svc, ApplyKind)
    {
      var t := Await();
      var base := work.svc.status;
      var next := SetReadyOutcome(base, work.svc.generation, work.hashes, work.svc.spec, site.corr(key),
                                  base.activePath, work.alloc, since);
      var w := WriteStatus(world, key, base, next, t.api);
      written := key in world.objects && t.api.Done?;
      svc := if written then w.objects[key] else work.svc.(status := next);
      var pc := if written then GoVerify(site, work.(svc := svc), work.order, [], PlainVerify, now) else Refusing(svc, ApplyKind);
      Commit(t, At(w, key, pc));
    }

    method CallRecord(work: Work, base: Status, next: Status)
      requires Valid() && Pc() == Recording(work, base, next)
      modifies this
      ensures Valid() && old(moves) <= moves && Pc() == Idle
    {
      var t := Await();
      Commit(t, At(WriteStatus(world, key, base, next, t.api), key, Idle));
    }

    /** setAndEmitFinalizing. */
    method NoteFinalizing(svc: Service)
      requires Valid() && Pc() == NotingFinalizing(svc)
      modifies this
      ensures Valid() && old(moves) <= moves && Pc() == Idle
    {
      var t := Await();
      var next := SetFinalizing(svc.status, svc.generation, now);
      Commit(t, At(WriteStatus(world, key, svc.status, next, t.api), key, Idle));
    }

    // ---- allocate.go and pkg/kuid --------------------------------------------------

    /** The served id claim; an unavailable authority sends the caller to the
        leases at once, a served one through a wait that times out. */
    method ClaimId(svc: Service) returns (go: bool)
      requires Valid() && Pc() == ClaimingId(svc)
      modifies this
      ensures Valid() && old(moves) <= moves
      ensures Pc() == if go then ListingLeases(svc) else Idle
    {
      var served, usedUp;
      go, served, usedUp := CallClaimId(svc);
      if go && served { go, usedUp := CallAwaitId(svc); }
      if !go && usedUp { Refuse(svc, PoolKind); }
    }

    method CallClaimId(svc: Service) returns (go: bool, served: bool, usedUp: bool)
      requires Valid() && Pc() == ClaimingId(svc)
      modifies this
      ensures Valid() && old(moves) <= moves
      ensures Pc() == if !go then GoUnclaimed(svc, usedUp) else if served then AwaitingId(svc) else ListingLeases(svc)
    {
      var t := Await();
      go, served, usedUp := t.api.Done?, t.served, t.usedUp;
      var w := Log(world, ClaimCall(key));
      if (go && served) || (t.api.Failed? && t.api.landed) {
        w := w.(claims := w.claims + {Claim(site.corr(key), IdClaim)});
      }
      Commit(t, At(w, key, if !go then GoUnclaimed(svc, usedUp) else if served then AwaitingId(svc) else ListingLeases(svc)));
    }

    method CallAwaitId(svc: Service) returns (go: bool, usedUp: bool)
      requires Valid() && Pc() == AwaitingId(svc)
      modifies this
      ensures Valid() && old(moves) <= moves
      ensures Pc() == if go then ListingLeases(svc) else GoUnclaimed(svc, usedUp)
    {
      var t := Await();
      go, usedUp := t.api.Done?, t.usedUp;
      Commit(t, At(world, key, if go then ListingLeases(svc) else GoUnclaimed(svc, usedUp)));
    }

    /** The list: a value already held is the answer. */
    method CallListLeases(svc: Service) returns (listed: bool, held: Option<int>, used: set<int>)
      requires Valid() && Pc() == ListingLeases(svc)
      modifies this
      ensures Valid() && old(moves) <= moves
      ensures !listed ==> Pc() == Idle
      ensures listed ==> Pc() == match held
        case None => GoCreate(site, svc, site.firstId, used)
        case Some(id) => GoPrefix(site, key, svc, id, OrderedAttachments(svc.spec.attachments), map[], now)
    {
      var t := Await();
      listed, held, used := t.api.Done?, None, world.leases.Keys;
      var own := OwnLeases(site, world.leases, key);
      if listed && own != {} {
        var id := AnyOf(own);
        held, t := Some(id), t.(pick := id);
      }
      var pc := if !listed then Idle else match held
        case None => GoCreate(site, svc, site.firstId, used)
        case Some(id) => GoPrefix(site, key, svc, id, OrderedAttachments(svc.spec.attachments), map[], now);
      Commit(t, At(Log(world, ClaimCall(key)), key, pc));
    }

    method CallCreateLease(svc: Service, value: int, used: set<int>) returns (answer: Created)
      requires Valid() && Pc() == CreatingLease(svc, value, used)
      modifies this
      ensures Valid() && old(moves) <= moves
      ensures Pc() == match answer
        case Won => GoPrefix(site, key, svc, value, OrderedAttachments(svc.spec.attachments), map[], now)
        case Exists => ReadingLease(svc, value, used)
        case Errs => Idle
    {
      var t := Await();
      answer := if t.api.Failed? then Errs else if value in world.leases then Exists else Won;
      var w := Log(world, ClaimCall(key));
      if value !in world.leases && (t.api.Done? || t.api.landed) {
        w := w.(leases := w.leases[value := site.corr(key)]);
      }
      var pc := match answer
        case Won => GoPrefix(site, key, svc, value, OrderedAttachments(svc.spec.attachments), map[], now)
        case Exists => ReadingLease(svc, value, used)
        case Errs => Idle;
      Commit(t, At(w, key, pc));
    }

    method CallReadLease(svc: Service, value: int, used: set<int>) returns (own: bool)
      requires Valid() && Pc() == ReadingLease(svc, value, used)
      modifies this
      ensures Valid() && old(moves) <= moves
      ensures Pc() == if own then GoPrefix(site, key, svc, value, OrderedAttachments(svc.spec.attachments), map[], now)
                      else GoCreate(site, svc, value + 1, used)
    {
      var t := Await();
      own := t.api.Done? && value in world.leases && world.leases[value] == site.corr(key);
      var pc := if own then GoPrefix(site, key, svc, value, OrderedAttachments(svc.spec.attachments), map[], now)
                else GoCreate(site, svc, value + 1, used);
      Commit(t, At(Log(world, ClaimCall(key)), key, pc));
    }

    method CallClaimPrefix(svc: Service, id: int, waiting: seq<Attachment>, prefixes: map<Node, string>)
      returns (address: Option<string>, usedUp: bool)
      requires Valid() && waiting != [] && Pc() == ClaimingPrefix(svc, id, waiting, prefixes)
      modifies this
      ensures Valid() && old(moves) <= moves
      ensures Pc() == match address
        case None => GoUnclaimed(svc, usedUp)
        case Some(a) => GoPrefix(site, key, svc, id, waiting[1..], prefixes[waiting[0].node := a], now)
    {
      var t := Await();
      address, usedUp := if t.api.Done? then Some(t.address) else None, t.usedUp;
      var w := Log(world, ClaimCall(key));
      if t.api.Done? || t.api.landed {
        w := w.(claims := w.claims + {Claim(site.corr(key), PrefixClaim(waiting[0].node, waiting[0].port))});
      }
      var pc := match address
        case None => GoUnclaimed(svc, usedUp)
        case Some(a) => GoPrefix(site, key, svc, id, waiting[1..], prefixes[waiting[0].node := a], now);
      Commit(t, At(w, key, pc));
    }

    /** AllocateLeaseID: the snapshot, then one create per value it does not
        hold; a taken name is read back. None is exhaustion, and the pass is
        already at the release of its partial claims. */
    method AllocateLeaseId(svc: Service) returns (ok: bool, id: Option<int>)
      requires Valid() && Pc() == ListingLeases(svc)
      modifies this
      ensures Valid() && old(moves) <= moves
      ensures !ok ==> Pc() == Idle
      ensures ok ==> Pc() == match id
        case None => ListingClaims(svc, ThenRefuse(PoolKind))
        case Some(v) => GoPrefix(site, key, svc, v, OrderedAttachments(svc.spec.attachments), map[], now)
    {
      hide Valid, GoPrefix;
      var used;
      ok, id, used := CallListLeases(svc);
      if !ok || id.Some? { return; }
      var value := site.firstId;
      while value <= site.lastId
        invariant Valid() && old(moves) <= moves && ok && id.None?
        invariant Pc() == GoCreate(site, svc, value, used)
        decreases site.lastId - value
      {
        if value !in used {
          var answer := TryLease(svc, value, used);
          match answer
          case Won => id := Some(value); return;
          case Errs => ok := false; return;
          case Exists =>
        }
        value := value + 1;
      }
    }

    /** One value: created, found to be the caller's own, or another's. */
    method TryLease(svc: Service, value: int, used: set<int>) returns (answer: Created)
      requires Valid() && value <= site.lastId && value !in used && Pc() == GoCreate(site, svc, value, used)
      modifies this
      ensures Valid() && old(moves) <= moves
      ensures Pc() == match answer
        case Won => GoPrefix(site, key, svc, value, OrderedAttachments(svc.spec.attachments), map[], now)
        case Exists => GoCreate(site, svc, value + 1, used)
        case Errs => Idle
    {
      hide Valid, GoPrefix;
      answer := CallCreateLease(svc, value, used);
      if answer.Exists? {
        var own := CallReadLease(svc, value, used);
        if own { answer := Won; }
      }
    }

    /** Allocate. None: the pass has ended, on a transient error or with the pool
        refused. */
    method Allocate(svc: Service) returns (alloc: Option<Allocations>)
      requires Valid() && Pc() == ClaimingId(svc)
      modifies this
      ensures Valid() && old(moves) <= moves
      ensures Pc() == match alloc case None => Idle case Some(a) => GoPlan(site, key, svc, a, now)
    {
      hide Valid, GoPrefix, GoPlan;
      alloc := None;
      var ok := ClaimId(svc);
      if !ok { return; }
      var id;
      ok, id := AllocateLeaseId(svc);
      if !ok { return; }
      if id.None? { GiveUp(svc); return; }
      alloc := ClaimPrefixes(svc, id.value);
    }

    /** The pool is used up: partial claims are released, and the pass refuses. */
    method GiveUp(svc: Service)
      requires Valid() && Pc() == ListingClaims(svc, ThenRefuse(PoolKind))
      modifies this
      ensures Valid() && old(moves) <= moves && Pc() == Idle
    {
      hide Valid;
      var released := ReleaseAll(svc, ThenRefuse(PoolKind));
      Refuse(svc, PoolKind);
    }

    /** A client prefix per attachment, in node order. */
    method ClaimPrefixes(svc: Service, id: int) returns (alloc: Option<Allocations>)
      requires Valid() && Pc() == GoPrefix(site, key, svc, id, OrderedAttachments(svc.spec.attachments), map[], now)
      modifies this
      ensures Valid() && old(moves) <= moves
      ensures Pc() == match alloc case None => Idle case Some(a) => GoPlan(site, key, svc, a, now)
    {
      hide Valid;
      var waiting, prefixes := OrderedAttachments(svc.spec.attachments), map[];
      while waiting != []
        invariant Valid() && old(moves) <= moves
        invariant Pc() == GoPrefix(site, key, svc, id, waiting, prefixes, now)
      {
        var address, usedUp := CallClaimPrefix(svc, id, waiting, prefixes);
        if address.None? {
          if usedUp { Refuse(svc, PoolKind); }
          return None;
        }
        prefixes := prefixes[waiting[0].node := address.value];
        waiting := waiting[1..];
      }
      alloc := Some(Allocations(id, VrfName(id), prefixes));
    }

    // ---- pkg/kuid/release.go -------------------------------------------------------

    method CallListClaims(svc: Service, after: After) returns (listed: bool, todo: set<ClaimName>)
      requires Valid() && Pc() == ListingClaims(svc, after)
      modifies this
      ensures Valid() && old(moves) <= moves
      ensures Pc() == if listed then DeletingClaims(svc, todo, after) else GoReleased(svc, after, false)
    {
      var t := Await();
      listed, todo := t.api.Done?, OwnClaims(site, world.claims, key);
      Commit(t, At(world, key, if listed then DeletingClaims(svc, todo, after) else GoReleased(svc, after, false)));
    }

    method CallDeleteClaim(svc: Service, todo: set<ClaimName>, name: ClaimName, after: After) returns (ok: bool)
      requires Valid() && name in todo && Pc() == DeletingClaims(svc, todo, after)
      modifies this
      ensures Valid() && old(moves) <= moves
      ensures Pc() == if ok then DeletingClaims(svc, todo - {name}, after) else GoReleased(svc, after, false)
    {
      var t := Await();
      t, ok := t.(claim := name), t.api.Done?;
      var w := Log(world, ClaimCall(key));
      if t.api.Done? || t.api.landed { w := w.(claims := w.claims - {Claim(site.corr(key), name)}); }
      Commit(t, At(w, key, if ok then DeletingClaims(svc, todo - {name}, after) else GoReleased(svc, after, false)));
    }

    /** Between the two halves of the release. */
    method ClaimsDeleted(svc: Service, after: After)
      requires Valid() && Pc() == DeletingClaims(svc, {}, after)
      modifies this
      ensures Valid() && old(moves) <= moves && Pc() == ListingOwnLeases(svc, after)
    {
      Commit(beats(clock).turn, At(world, key, ListingOwnLeases(svc, after)));
    }

    method CallListOwnLeases(svc: Service, after: After) returns (listed: bool, todo: set<int>)
      requires Valid() && Pc() == ListingOwnLeases(svc, after)
      modifies this
      ensures Valid() && old(moves) <= moves
      ensures Pc() == if listed then DeletingLeases(svc, todo, after) else GoReleased(svc, after, false)
    {
      var t := Await();
      listed, todo := t.api.Done?, OwnLeases(site, world.leases, key);
      Commit(t, At(world, key, if listed then DeletingLeases(svc, todo, after) else GoReleased(svc, after, false)));
    }

    method CallDeleteLease(svc: Service, todo: set<int>, value: int, after: After) returns (ok: bool)
      requires Valid() && value in todo && Pc() == DeletingLeases(svc, todo, after)
      modifies this
      ensures Valid() && old(moves) <= moves
      ensures Pc() == if ok then DeletingLeases(svc, todo - {value}, after) else GoReleased(svc, after, false)
    {
      var t := Await();
      t, ok := t.(pick := value), t.api.Done?;
      var w := Log(world, ClaimCall(key));
      if t.api.Done? || t.api.landed { w := w.(leases := w.leases - {value}); }
      Commit(t, At(w, key, if ok then DeletingLeases(svc, todo - {value}, after) else GoReleased(svc, after, false)));
    }

    method LeasesDeleted(svc: Service, after: After)
      requires Valid() && Pc() == DeletingLeases(svc, {}, after)
      modifies this
      ensures Valid() && old(moves) <= moves && Pc() == GoReleased(svc, after, true)
    {
      Commit(beats(clock).turn, At(world, key, GoReleased(svc, after, true)));
    }

    /** ReleaseByCorrelationID: every claim, then every lease, of this service;
        the first error ends it. */
    method ReleaseAll(svc: Service, after: After) returns (ok: bool)
      requires Valid() && Pc() == ListingClaims(svc, after)
      modifies this
      ensures Valid() && old(moves) <= moves
      ensures Pc() == GoReleased(svc, after, ok)
    {
      hide Valid;
      var names;
      ok, names := CallListClaims(svc, after);
      if !ok { return; }
      while names != {}
        invariant Valid() && old(moves) <= moves && ok
        invariant Pc() == DeletingClaims(svc, names, after)
        decreases |names|
      {
        var name := AnyOf(names);
        ok := CallDeleteClaim(svc, names, name, after);
        if !ok { return; }
        names := names - {name};
      }
      ClaimsDeleted(svc, after);
      ok := ReleaseLeases(svc, after);
    }

    /** releaseFallbackLeases. */
    method ReleaseLeases(svc: Service, after: After) returns (ok: bool)
      requires Valid() && Pc() == ListingOwnLeases(svc, after)
      modifies this
      ensures Valid() && old(moves) <= moves
      ensures Pc() == GoReleased(svc, after, ok)
    {
      var values;
      ok, values := CallListOwnLeases(svc, after);
      if !ok { return; }
      while values != {}
        invariant Valid() && old(moves) <= moves && ok
        invariant Pc() == DeletingLeases(svc, values, after)
        decreases |values|
      {
        var value := AnyOf(values);
        ok := CallDeleteLease(svc, values, value, after);
        if !ok { return; }
        values := values - {value};
      }
      LeasesDeleted(svc, after);
    }

    // ---- update.go -----------------------------------------------------------------

    /** applyUpdate: remove on the nodes that lost an op, apply, verify, record.
        The result is the local object to go on with, or the refusal raised. */
    method ApplyUpdate(work: Work, prev: Plan) returns (svc: Service, refused: Option<Kind>)
      requires Valid() && work.order == PlanOrder(work.plan)
      requires Pc() == GoRemove(site, work, prev, RemovalNodes(prev, work.plan), now)
      modifies this
      ensures Valid() && old(moves) <= moves
      ensures Pc() == if refused.None? then GoVerify(site, work.(svc := svc), work.order, [], PlainVerify, now)
                      else Refusing(svc, refused.value)
    {
      hide Valid;
      svc, refused := work.svc, Some(ApplyKind);
      var answered := RemoveLost(work, prev);
      if !answered { return; }
      var failed := ApplyPlan(work, work.plan, UpdateApply(prev));
      if failed { Restore(work, prev); }
      else { svc, refused := VerifyAndRecord(work); }
    }

    /** A failed update: every node back to the previous plan. */
    method Restore(work: Work, prev: Plan)
      requires Valid() && Pc() == GoFailedApply(site, work, UpdateApply(prev), now)
      modifies this
      ensures Valid() && old(moves) <= moves && Pc() == Refusing(work.svc, ApplyKind)
    {
      RollbackPlan(work, prev, UpdateRoll);
      var failed := ApplyPlan(work, prev, RestoreApply);
    }

    /** The removal: the previous rollback, on every node that lost an op; only
        a transport error ends it. */
    method RemoveLost(work: Work, prev: Plan) returns (answered: bool)
      requires Valid() && Pc() == GoRemove(site, work, prev, RemovalNodes(prev, work.plan), now)
      modifies this
      ensures Valid() && old(moves) <= moves
      ensures Pc() == if answered then GoRemove(site, work, prev, [], now) else Refusing(work.svc, ApplyKind)
    {
      answered := true;
      var nodes := RemovalNodes(prev, work.plan);
      while nodes != []
        invariant Valid() && old(moves) <= moves
        invariant forall n :: n in nodes ==> n in prev.nodes
        invariant Pc() == GoRemove(site, work, prev, nodes, now)
      {
        answered := CallRemove(work, prev, nodes);
        if !answered { return; }
        nodes := nodes[1..];
      }
      answered := true;
    }

    method VerifyAndRecord(work: Work) returns (svc: Service, refused: Option<Kind>)
      requires Valid() && Pc() == GoVerify(site, work, work.order, [], UpdateVerify, now)
      modifies this
      ensures Valid() && old(moves) <= moves
      ensures Pc() == if refused.None? then GoVerify(site, work.(svc := svc), work.order, [], PlainVerify, now)
                      else Refusing(svc, refused.value)
    {
      var seen, failed := VerifyPlan(work, UpdateVerify);
      svc := work.svc.(status := work.svc.status.(nodes := seen));
      refused := failed;
      if refused.Some? { return; }
      var work' := work.(svc := svc);
      var written;
      svc, written := CallRecordUpdate(work', now);
      if !written { refused := Some(ApplyKind); }
      assert work'.(svc := svc) == work.(svc := svc);
    }

    // ---- finalizer.go --------------------------------------------------------------

    /** ensureFinalizer. */
    method EnsureFinalizer()
      requires Valid() && Pc() == AddingFinalizer
      modifies this
      ensures Valid() && old(moves) <= moves && Pc() == Idle
    {
      var t := Await();
      var w := world;
      if key in world.objects && (t.api.Done? || t.api.landed) {
        w := Log(w.(objects := w.objects[key := w.objects[key].(finalizer := true)]), ObjectWrite(key));
      }
      Commit(t, At(w, key, Idle));
    }

    method CallStrip(svc: Service)
      requires Valid() && Pc() == Stripping(svc)
      modifies this
      ensures Valid() && old(moves) <= moves && Pc() == Idle
    {
      var t := Await();
      var w := world;
      if key in world.objects && (t.api.Done? || t.api.landed) {
        w := Log(w.(objects := w.objects - {key}), ObjectWrite(key));
      }
      Commit(t, At(w, key, Idle));
    }

    /** finalizeDelete: roll back, and only when no node is left unconfirmed
        release the claims, and only then let the object go. */
    method FinalizeDelete(svc: Service, plan: Plan, order: seq<Node>)
      requires Valid() && Pc() == GoFinalRollback(svc, plan, order, {}) && forall n :: n in order ==> n in plan.nodes
      modifies this
      ensures Valid() && old(moves) <= moves && Pc() == Idle
    {
      var dirty := RollEverything(svc, plan, order);
      if dirty != {} { NoteFinalizing(svc); } else { LetGo(svc); }
    }

    /** Every node of the order, whatever the answers; the nodes left unconfirmed. */
    method RollEverything(svc: Service, plan: Plan, order: seq<Node>) returns (dirty: set<Node>)
      requires Valid() && Pc() == GoFinalRollback(svc, plan, order, {}) && forall n :: n in order ==> n in plan.nodes
      modifies this
      ensures Valid() && old(moves) <= moves && Pc() == GoFinalRollback(svc, plan, [], dirty)
    {
      var todo := order;
      dirty := {};
      while todo != []
        invariant Valid() && old(moves) <= moves
        invariant forall n :: n in todo ==> n in plan.nodes
        invariant Pc() == GoFinalRollback(svc, plan, todo, dirty)
      {
        dirty := CallFinalRollback(svc, plan, todo, dirty);
        todo := todo[1..];
      }
    }

    /** Claims and Leases first, and the finalizer only when they are gone. */
    method LetGo(svc: Service)
      requires Valid() && Pc() == ListingClaims(svc, ThenStrip)
      modifies this
      ensures Valid() && old(moves) <= moves && Pc() == Idle
    {
      var released := ReleaseAll(svc, ThenStrip);
      if released { CallStrip(svc); } else { NoteFinalizing(svc); }
    }

    // ---- controller.go -------------------------------------------------------------

    /** Get, and the stages that make no call of their own. */
    method Begin() returns (start: Begun)
      requires Valid() && Pc() == Idle
      modifies this
      ensures Valid() && old(moves) <= moves && |old(moves)| < |moves|
      ensures moves[|moves| - 1].PassStep? && moves[|moves| - 1].key == key
      ensures match start
        case Nothing => Pc() == Idle
        case Deleting(svc, plan, order) => Pc() == GoFinalRollback(svc, plan, order, {}) && forall n :: n in order ==> n in plan.nodes
        case Unfinalized => Pc() == AddingFinalizer
        case Refused(svc, kind) => Pc() == Refusing(svc, kind)
        case Reused(svc, alloc) => Pc() == GoPlan(site, key, svc, alloc, now)
        case Unclaimed(svc) => Pc() == ClaimingId(svc)
    {
      var t := Await();
      start := Nothing;
      var w := world;
      if key in world.objects {
        var svc := world.objects[key];
        if svc.deleting {
          if svc.finalizer {
            var final := FinalPlan(site, svc);
            var plan := if final.Some? then final.value else Plan(map[]);
            var order := if final.Some? then WithRollback(plan, PlanOrder(plan)) else [];
            start, w := Deleting(svc, plan, order), At(w, key, GoFinalRollback(svc, plan, order, {}));
          }
        } else if !svc.finalizer {
          start, w := Unfinalized, At(w, key, AddingFinalizer);
        } else if t.gate.Some? {
          start, w := Begun.Refused(svc, t.gate.value), At(w, key, Refusing(svc, t.gate.value));
        } else if Reusable(site, svc, site.corr(key)) {
          var alloc := svc.status.allocations.value;
          start, w := Reused(svc, alloc), At(w, key, GoPlan(site, key, svc, alloc, now));
        } else if !site.located(svc.spec) {
          start, w := Begun.Refused(svc, LocatorKind), At(w, key, Refusing(svc, LocatorKind));
        } else {
          start, w := Unclaimed(svc), At(w, key, ClaimingId(svc));
        }
      }
      Commit(t, w);
    }

    /** Reconcile, from the read of the object to the end of the pass. */
    method Reconcile()
      requires Valid() && Pc() == Idle
      modifies this
      ensures Valid() && old(moves) <= moves && Pc() == Idle
      ensures world == Run(site, origin, moves)
      ensures exists i :: |old(moves)| <= i < |moves| && moves[i].PassStep? && moves[i].key == key
    {
      var start := Begin();
      ghost var first := |moves| - 1;
      assert moves[first].PassStep? && moves[first].key == key;
      match start {
        case Nothing =>
        case Deleting(svc, plan, order) => FinalizeDelete(svc, plan, order);
        case Unfinalized => EnsureFinalizer();
        case Refused(svc, kind) => Refuse(svc, kind);
        case Reused(svc, alloc) => Drive(svc, alloc);
        case Unclaimed(svc) =>
          var alloc := Allocate(svc);
          if alloc.Some? { Drive(svc, alloc.value); }
      }
      ChainedIsRun(site, worlds, moves);
    }

    /** Render and apply what changed. */
    method Drive(svc: Service, alloc: Allocations)
      requires Valid() && Pc() == GoPlan(site, key, svc, alloc, now)
      modifies this
      ensures Valid() && old(moves) <= moves && Pc() == Idle
    {
      var rendered := site.render(svc.spec, alloc);
      if rendered.None? { Refuse(svc, ApplyKind); return; }
      var plan := rendered.value;
      var order, hashes := PlanOrder(plan), PlanHashes(site, plan);
      var sameRender := HashesEqual(svc.status.configHashes, hashes);
      var work := Work(key, svc, alloc, plan, order, hashes, sameRender, false);
      if svc.status.appliedSpec.Some? && !sameRender {
        var prev := site.render(svc.status.appliedSpec.value, alloc);
        if prev.None? { Refuse(svc, ApplyKind); return; }
        var local, refused := ApplyUpdate(work, prev.value);
        if refused.Some? { Refuse(local, refused.value); return; }
        work := work.(svc := local);
      } else if !sameRender {
        var applied := FirstApplication(work);
        if !applied { return; }
      }
      Observe(work);
    }

    /** The plain path: apply, and on a failed node roll back and release. */
    method FirstApplication(work: Work) returns (applied: bool)
      requires Valid() && work.order == PlanOrder(work.plan) && Pc() == GoApply(site, work, work.plan, work.order, FirstApply, now)
      modifies this
      ensures Valid() && old(moves) <= moves
      ensures Pc() == if applied then GoVerify(site, work, work.order, [], PlainVerify, now) else Idle
    {
      var failed := ApplyPlan(work, work.plan, FirstApply);
      if failed { Abandon(work); }
      applied := !failed;
    }

    method Abandon(work: Work)
      requires Valid() && Pc() == GoFailedApply(site, work, FirstApply, now)
      modifies this
      ensures Valid() && old(moves) <= moves && Pc() == Idle
    {
      RollbackPlan(work, work.plan, FirstRoll);
      var released := ReleaseAll(work.svc, ThenRefuse(ApplyKind));
      Refuse(work.svc, ApplyKind);
    }

    /** Verify, read the path, repair a drift. */
    method Observe(work: Work)
      requires Valid() && work.key == key && work.order == PlanOrder(work.plan)
      requires Pc() == GoVerify(site, work, work.order, [], PlainVerify, now)
      modifies this
      ensures Valid() && old(moves) <= moves && Pc() == Idle
    {
      var seen, failed := VerifyPlan(work, PlainVerify);
      var looked := work.(svc := work.svc.(status := work.svc.status.(nodes := seen)));
      if !site.steerable(looked.svc.spec, looked.order) {
        Settle(looked, failed, "");
      } else {
        ObservePath(looked, failed);
      }
    }

    /** The path stage of a steered service. */
    method ObservePath(work: Work, failed: Option<Kind>)
      requires Valid() && work.key == key && work.order == PlanOrder(work.plan) && Pc() == Observing(work, failed)
      modifies this
      ensures Valid() && old(moves) <= moves && Pc() == Idle
    {
      var path, skipRepair := CallObserve(work, failed);
      match path {
        case Unread =>
        case NoLeg => Refuse(work.svc, PathKind);
        case Rides(spine) =>
          if skipRepair { Settle(work.(skipRepair := true), None, spine); }
          else { Settle(work, failed, spine); }
      }
    }

    /** What to do about the verify refusal, if any is left, and then Ready. */
    method Settle(work: Work, failed: Option<Kind>, active: string)
      requires Valid() && work.key == key && work.order == PlanOrder(work.plan)
      requires Pc() == AfterPath(site, work, failed, active, now)
      modifies this
      ensures Valid() && old(moves) <= moves && Pc() == Idle
    {
      if failed.None? {
        Record(work, active);
      } else if work.sameRender && failed.value == CheckKind {
        Repair(work, active);
      } else {
        Refuse(work.svc, failed.value);
      }
    }

    /** Drift repair: note it, apply the ops once more, verify again. */
    method Repair(work: Work, active: string)
      requires Valid() && Pc() == NotingDrift(work, active) && work.key == key && work.order == PlanOrder(work.plan)
      modifies this
      ensures Valid() && old(moves) <= moves && Pc() == Idle
    {
      hide Valid;
      var noted := PatchDriftObserved(work, active);
      var applied := Reapply(noted, active);
      if applied { Reverify(noted, active); }
    }

    method Reverify(work: Work, active: string)
      requires Valid() && work.key == key && Pc() == GoVerify(site, work, work.order, [], DriftVerify(active), now)
      modifies this
      ensures Valid() && old(moves) <= moves && Pc() == Idle
    {
      var seen, failed := VerifyPlan(work, DriftVerify(active));
      var looked := work.(svc := work.svc.(status := work.svc.status.(nodes := seen)));
      if failed.Some? { Refuse(looked.svc, failed.value); } else { Record(looked, active); }
    }

    method Reapply(work: Work, active: string) returns (applied: bool)
      requires Valid() && work.order == PlanOrder(work.plan)
      requires Pc() == GoApply(site, work, work.plan, work.order, DriftApply(active), now)
      modifies this
      ensures Valid() && old(moves) <= moves
      ensures Pc() == if applied then GoVerify(site, work, work.order, [], DriftVerify(active), now) else Idle
    {
      var failed := ApplyPlan(work, work.plan, DriftApply(active));
      if failed { AbandonRepair(work, active); }
      applied := !failed;
    }

    method AbandonRepair(work: Work, active: string)
      requires Valid() && Pc() == GoFailedApply(site, work, DriftApply(active), now)
      modifies this
      ensures Valid() && old(moves) <= moves && Pc() == Idle
    {
      RollbackPlan(work, work.plan, DriftRoll);
      Refuse(work.svc, ApplyKind);
    }

    /** The ready stage: probe once, and write only what changed. */
    method Record(work: Work, active: string)
      requires Valid() && work.key == key && Pc() == GoReady(site, work, active, now)
      modifies this
      ensures Valid() && old(moves) <= moves && Pc() == Idle
    {
      var base, dataPath := work.svc.status, work.svc.status.dataPath;
      if dataPath.None? {
        var answer := CallProbe(work, active);
        match answer {
          case ProbeErrs => return;
          case ProbeFails => Refuse(work.svc, DataPathKind); return;
          case ProbePasses => dataPath := Some(now);
        }
      }
      var next := SetReadyOutcome(base.(dataPath := dataPath), work.svc.generation, work.hashes, work.svc.spec,
                                  site.corr(key), active, work.alloc, now);
      if base != next { CallRecord(work, base, next); }
    }
  }

  /** A move of another service's pass, or of the outside, leaves this worker's
      program counter alone. */
  lemma OtherMove(site: Site, w: World, m: Move, key: Key)
    requires Inv(site, w) && !(m.PassStep? && m.key == key)
    ensures PassOf(Apply(site, w, m), key) == PassOf(w, key)
  {
    if m.PassStep? {
      assert KeyOk(site, w, m.key);
      StepOwn(site, w, m.key, m.turn);
    }
  }
}
