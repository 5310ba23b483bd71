/** Safety over every run: unique identifiers, no orphans, what Ready means. */
module PassSafety {
  import opened Text
  import opened ServiceObjects
  import opened PassMachine
  import opened PassInvariant
  import opened PassPreservation
  import opened PassRuns

  ghost predicate Active(w: World, key: Key) {
    key in w.objects && !w.objects[key].deleting && w.objects[key].status.allocations.Some?
  }

  lemma VrfNameInjective(a: int, b: int)
    requires a > 0 && b > 0 && VrfName(a) == VrfName(b)
    ensures a == b
  {
    assert VrfName(a)[3..] == Decimal(a) && VrfName(b)[3..] == Decimal(b);
    DecimalInjective(a, b);
  }

  /** In every reachable state a service that has recorded identifiers and is not
      being deleted holds the Lease for its id, so no two of them share a
      service id or a VRF name. */
  lemma IdentifiersAreExclusive(site: Site, moves: seq<Move>, a: Key, b: Key)
    requires SiteOk(site)
    ensures var w := Run(site, EmptyWorld, moves);
      && (Active(w, a) ==>
            var id := w.objects[a].status.allocations.value.id;
            id in w.leases && w.leases[id] == site.corr(a))
      && (a != b && Active(w, a) && Active(w, b) ==>
            var x, y := w.objects[a].status.allocations.value, w.objects[b].status.allocations.value;
            x.id != y.id && x.vrf != y.vrf)
  {
    RunOk(site, moves);
    var w := Run(site, EmptyWorld, moves);
    assert KeyOk(site, w, a) && KeyOk(site, w, b);
    if a != b && Active(w, a) && Active(w, b) {
      var x, y := w.objects[a].status.allocations.value, w.objects[b].status.allocations.value;
      assert x.id in OwnLeases(site, w.leases, a) && y.id in OwnLeases(site, w.leases, b);
      assert site.keyOf(site.corr(a)) == Some(a) && site.keyOf(site.corr(b)) == Some(b);
      if x.vrf == y.vrf { VrfNameInjective(x.id, y.id); }
    }
  }

  /** In every reachable state a claim or a Lease of a service implies that the
      stored object is there and still carries the finalizer. */
  lemma NoOrphanIdentifiers(site: Site, moves: seq<Move>, key: Key)
    requires SiteOk(site)
    ensures var w := Run(site, EmptyWorld, moves);
      (exists v :: v in w.leases && w.leases[v] == site.corr(key)) || (exists c :: c in w.claims && c.corr == site.corr(key))
      ==> key in w.objects && w.objects[key].finalizer
  {
    RunOk(site, moves);
    var w := Run(site, EmptyWorld, moves);
    assert KeyOk(site, w, key);
    if v :| v in w.leases && w.leases[v] == site.corr(key) {
      assert v in OwnLeases(site, w.leases, key);
    }
    if c :| c in w.claims && c.corr == site.corr(key) {
      assert c.name in OwnClaims(site, w.claims, key);
    }
  }

  /** A service never holds two values of the pool, in any reachable state. */
  lemma AtMostOneLease(site: Site, moves: seq<Move>, key: Key, u: int, v: int)
    requires SiteOk(site)
    requires var w := Run(site, EmptyWorld, moves);
      u in w.leases && v in w.leases && w.leases[u] == site.corr(key) && w.leases[v] == site.corr(key)
    ensures u == v && site.firstId <= u <= site.lastId
  {
    RunOk(site, moves);
    var w := Run(site, EmptyWorld, moves);
    assert KeyOk(site, w, key);
    assert u in OwnLeases(site, w.leases, key) && v in OwnLeases(site, w.leases, key);
  }

  /** Ready=True implies a passed data-path stamp and a full record, although
      the update path writes it without probing: the identifiers, the applied
      spec, and the hashes of a render under those identifiers, never none. */
  lemma ReadyMeansRecorded(site: Site, moves: seq<Move>, key: Key)
    requires SiteOk(site) && RenderOk(site)
    ensures var w := Run(site, EmptyWorld, moves);
      key in w.objects && IsReady(w.objects[key].status) ==>
        var st := w.objects[key].status;
        && st.dataPath.Some? && st.appliedSpec.Some? && st.allocations.Some? && st.correlationId == site.corr(key)
        && Rendered(site, st.allocations.value, st.configHashes) && st.configHashes != map[]
  {
    RunOk(site, moves);
    var w := Run(site, EmptyWorld, moves);
    assert KeyOk(site, w, key);
    if key in w.objects && IsReady(w.objects[key].status) {
      var st := w.objects[key].status;
      var spec :| IsRender(site, spec, st.allocations.value, st.configHashes);
      HashesOfRender(site, spec, st.allocations.value);
    }
  }

  lemma HashesOfRender(site: Site, spec: ServiceSpec, alloc: Allocations)
    requires RenderOk(site) && site.render(spec, alloc).Some?
    ensures PlanHashes(site, site.render(spec, alloc).value) != map[]
  {
    var nodes := site.render(spec, alloc).value.nodes;
    var n :| n in nodes;
    assert n in PlanHashes(site, site.render(spec, alloc).value);
  }

  /** What the passes that may write Ready=True have seen. */
  ghost predicate MayWriteReady(pass: Pass) {
    match pass
    case RecordingUpdate(work, _) => AllVerified(work.svc.status.nodes, work.order)
    case Recording(work, base, next) => AllVerified(base.nodes, work.order) || Waived(work, next.activePath)
    case _ => false
  }

  lemma StatusWriteKinds(site: Site, w: World, key: Key, t: Turn)
    requires KeyOk(site, w, key) && key in w.objects && key in Step(site, w, key, t).objects
    requires PassOf(w, key).Refusing? || PassOf(w, key).NotingFinalizing? || PassOf(w, key).NotingDrift?
    ensures IsReady(Step(site, w, key, t).objects[key].status) ==> IsReady(w.objects[key].status)
  {
  }

  lemma OnlyStatusSteps(site: Site, w: World, key: Key, t: Turn)
    requires key in w.objects && key in Step(site, w, key, t).objects
    requires var p := PassOf(w, key);
      !p.RecordingUpdate? && !p.Recording? && !p.Refusing? && !p.NotingFinalizing? && !p.NotingDrift?
    ensures Step(site, w, key, t).objects[key].status == w.objects[key].status
  {
    var p := PassOf(w, key);
    if p.Idle? || p.AddingFinalizer? || p.AwaitingId? || p.Stripping? { OtherStatus(site, w, key, t); }
    else if p.ClaimingId? || p.ListingLeases? || p.CreatingLease? || p.ReadingLease? || p.ClaimingPrefix? { ClaimStatus(site, w, key, t); }
  }

  lemma OtherStatus(site: Site, w: World, key: Key, t: Turn)
    requires key in w.objects && key in Step(site, w, key, t).objects
    requires var p := PassOf(w, key); p.Idle? || p.AddingFinalizer? || p.AwaitingId? || p.Stripping?
    ensures Step(site, w, key, t).objects[key].status == w.objects[key].status
  {
  }

  lemma ClaimStatus(site: Site, w: World, key: Key, t: Turn)
    requires key in w.objects && key in Step(site, w, key, t).objects
    requires var p := PassOf(w, key); p.ClaimingId? || p.ListingLeases? || p.CreatingLease? || p.ReadingLease? || p.ClaimingPrefix?
    ensures Step(site, w, key, t).objects[key].status == w.objects[key].status
  {
  }

  /** In every run, whatever move turns a service Ready is a status write of a
      pass in which the locator probe and the checks of every plan node passed,
      or whose failed checks the steered-failover rule waived. */
  lemma ReadyOnlyAfterVerification(site: Site, moves: seq<Move>, m: Move, key: Key)
    requires SiteOk(site)
    ensures var w := Run(site, EmptyWorld, moves);
      var w' := Apply(site, w, m);
      key in w'.objects && IsReady(w'.objects[key].status) && !(key in w.objects && IsReady(w.objects[key].status))
      ==> m.PassStep? && m.key == key && MayWriteReady(PassOf(w, key))
  {
    RunOk(site, moves);
    var w := Run(site, EmptyWorld, moves);
    var w' := Apply(site, w, m);
    assert KeyOk(site, w, key);
    hide Run;
    if key in w'.objects && IsReady(w'.objects[key].status) && !(key in w.objects && IsReady(w.objects[key].status)) {
      match m
      case PassStep(k, t) =>
        hide Step;
        assert KeyOk(site, w, k);
        StepOwn(site, w, k, t);
        assert k != key ==> Obj(w', key) == Obj(w, key);
        if k == key {
          var p := PassOf(w, key);
          if p.Refusing? || p.NotingFinalizing? || p.NotingDrift? { StatusWriteKinds(site, w, key, t); }
          else if !p.RecordingUpdate? && !p.Recording? {
            StepObjects(site, w, key, t);
            OnlyStatusSteps(site, w, key, t);
          }
        }
      case _ =>
    }
  }

  /** No pass creates its own object. */
  lemma StepObjects(site: Site, w: World, key: Key, t: Turn)
    ensures Step(site, w, key, t).objects.Keys <= w.objects.Keys
  {
    var p := PassOf(w, key);
    if p.ClaimingId? || p.ListingLeases? || p.CreatingLease? || p.ReadingLease? || p.ClaimingPrefix? { ClaimObjects(site, w, key, t); }
  }

  lemma ClaimObjects(site: Site, w: World, key: Key, t: Turn)
    requires var p := PassOf(w, key); p.ClaimingId? || p.ListingLeases? || p.CreatingLease? || p.ReadingLease? || p.ClaimingPrefix?
    ensures Step(site, w, key, t).objects == w.objects
  {
  }

  // ---- what a service keeps while it lives ------------------------------------------

  ghost predicate SameIds(w: World, w': World, key: Key)
    requires Active(w, key)
  {
    && Active(w', key)
    && w'.objects[key].status.allocations.value.id == w.objects[key].status.allocations.value.id
    && w'.objects[key].status.allocations.value.vrf == w.objects[key].status.allocations.value.vrf
  }

  lemma RecordedIdKept(site: Site, w: World, key: Key, t: Turn)
    requires SiteOk(site) && KeyOk(site, w, key) && KeyOk(site, Step(site, w, key, t), key)
    requires Active(w, key)
    ensures SameIds(w, Step(site, w, key, t), key)
  {
    var p := PassOf(w, key);
    if p.RecordingUpdate? { RecordingUpdateKeepsId(site, w, key, t); }
    else if p.Recording? { RecordingKeepsId(site, w, key, t); }
    else if p.Refusing? { RefusingKeepsId(site, w, key, t); }
    else if p.NotingFinalizing? { NotingFinalizingKeepsId(site, w, key, t); }
    else if p.NotingDrift? { NotingDriftKeepsId(site, w, key, t); }
    else {
      OtherKeepsObject(site, w, key, t);
      OnlyStatusSteps(site, w, key, t);
    }
  }

  lemma RecordingUpdateKeepsId(site: Site, w: World, key: Key, t: Turn)
    requires SiteOk(site) && KeyOk(site, w, key) && Active(w, key) && PassOf(w, key).RecordingUpdate?
    ensures SameIds(w, Step(site, w, key, t), key)
  {
  }

  lemma RecordingKeepsId(site: Site, w: World, key: Key, t: Turn)
    requires SiteOk(site) && KeyOk(site, w, key) && Active(w, key) && PassOf(w, key).Recording?
    ensures SameIds(w, Step(site, w, key, t), key)
  {
  }

  lemma RefusingKeepsId(site: Site, w: World, key: Key, t: Turn)
    requires SiteOk(site) && KeyOk(site, w, key) && Active(w, key) && PassOf(w, key).Refusing?
    ensures SameIds(w, Step(site, w, key, t), key)
  {
  }

  lemma NotingFinalizingKeepsId(site: Site, w: World, key: Key, t: Turn)
    requires SiteOk(site) && KeyOk(site, w, key) && Active(w, key) && PassOf(w, key).NotingFinalizing?
    ensures SameIds(w, Step(site, w, key, t), key)
  {
  }

  lemma NotingDriftKeepsId(site: Site, w: World, key: Key, t: Turn)
    requires SiteOk(site) && KeyOk(site, w, key) && Active(w, key) && PassOf(w, key).NotingDrift?
    ensures SameIds(w, Step(site, w, key, t), key)
  {
  }

  lemma OtherKeepsObject(site: Site, w: World, key: Key, t: Turn)
    requires KeyOk(site, w, key) && key in w.objects && !w.objects[key].deleting
    requires var p := PassOf(w, key);
      !p.RecordingUpdate? && !p.Recording? && !p.Refusing? && !p.NotingFinalizing? && !p.NotingDrift?
    ensures key in Step(site, w, key, t).objects && !Step(site, w, key, t).objects[key].deleting
  {
    var p := PassOf(w, key);
    if p.ClaimingId? || p.ListingLeases? || p.CreatingLease? || p.ReadingLease? || p.ClaimingPrefix? { ClaimObjects(site, w, key, t); }
    else if p.Removing? || p.Applying? || p.RollingBack? || p.Verifying? || p.Observing? || p.Probing? { DeviceObjects(site, w, key, t); }
    else if p.ListingClaims? || p.DeletingClaims? || p.ListingOwnLeases? || p.DeletingLeases? || p.AwaitingId? { ReleaseObjects(site, w, key, t); }
  }

  lemma DeviceObjects(site: Site, w: World, key: Key, t: Turn)
    requires var p := PassOf(w, key); p.Removing? || p.Applying? || p.RollingBack? || p.Verifying? || p.Observing? || p.Probing?
    ensures Step(site, w, key, t).objects == w.objects
  {
  }

  lemma ReleaseObjects(site: Site, w: World, key: Key, t: Turn)
    requires var p := PassOf(w, key); p.ListingClaims? || p.DeletingClaims? || p.ListingOwnLeases? || p.DeletingLeases? || p.AwaitingId?
    ensures Step(site, w, key, t).objects == w.objects
  {
  }

  /** In every run a recorded service id and VRF name stay what they are, and the
      finalizer stays on, across updates, drift repairs and failed applies, until
      an operator deletes the service. */
  lemma IdentifiersAreStable(site: Site, moves: seq<Move>, m: Move, key: Key)
    requires SiteOk(site) && Active(Run(site, EmptyWorld, moves), key) && m != Delete(key)
    ensures var w := Run(site, EmptyWorld, moves);
      var w' := Apply(site, w, m);
      SameIds(w, w', key) && w.objects[key].finalizer && w'.objects[key].finalizer
  {
    RunOk(site, moves);
    var w := Run(site, EmptyWorld, moves);
    HolderIsFinalized(site, w, key);
    MoveKeepsIds(site, w, m, key);
    ApplyOk(site, w, m);
    HolderIsFinalized(site, Apply(site, w, m), key);
    hide Run, Apply, Inv;
  }

  lemma MoveKeepsIds(site: Site, w: World, m: Move, key: Key)
    requires SiteOk(site) && Inv(site, w) && Active(w, key) && w.objects[key].finalizer && m != Delete(key)
    ensures SameIds(w, Apply(site, w, m), key)
  {
    assert KeyOk(site, w, key);
    match m
    case PassStep(k, t) =>
      hide Step, KeyOk;
      assert KeyOk(site, w, k);
      if k == key {
        StepOk(site, w, key, t);
        RecordedIdKept(site, w, key, t);
      } else {
        StepOwn(site, w, k, t);
        assert Obj(Step(site, w, k, t), key) == Obj(w, key);
      }
    case _ =>
  }

  lemma HolderIsFinalized(site: Site, w: World, key: Key)
    requires Inv(site, w) && Active(w, key)
    ensures w.objects[key].finalizer
  {
    assert KeyOk(site, w, key);
    assert w.objects[key].status.allocations.value.id in OwnLeases(site, w.leases, key);
  }

  // ---- deletion -----------------------------------------------------------------------

  /** A delete pass that has met an unreachable node. */
  ghost predicate Keeping(pass: Pass) {
    (pass.FinalRollback? && pass.dirty != {}) || pass.NotingFinalizing?
  }

  /** What a run may do while the delete pass of `key` goes on: its pass has not
      ended before the last move. */
  ghost predicate StillRunning(site: Site, w: World, moves: seq<Move>, key: Key) {
    forall i :: 0 <= i < |moves| ==> !PassOf(Run(site, w, moves[..i]), key).Idle?
  }

  lemma KeepingOwnStep(site: Site, w: World, key: Key, t: Turn)
    requires KeyOk(site, w, key) && Keeping(PassOf(w, key))
    ensures var w' := Step(site, w, key, t);
      && (Keeping(PassOf(w', key)) || PassOf(w', key).Idle?)
      && w'.leases == w.leases && w'.claims == w.claims && key in w'.objects && w'.objects[key].finalizer
  {
    hide Start, OwnLeases, OwnClaims, RecordOk, IdsOk;
  }

  lemma KeepingStep(site: Site, w: World, m: Move, key: Key)
    requires SiteOk(site) && Inv(site, w) && Keeping(PassOf(w, key))
    ensures var w' := Apply(site, w, m);
      && (Keeping(PassOf(w', key)) || PassOf(w', key).Idle?)
      && OwnLeases(site, w'.leases, key) == OwnLeases(site, w.leases, key)
      && OwnClaims(site, w'.claims, key) == OwnClaims(site, w.claims, key)
      && key in w'.objects && w'.objects[key].finalizer
  {
    assert KeyOk(site, w, key);
    match m
    case PassStep(k, t) =>
      assert KeyOk(site, w, k);
      if k == key {
        KeepingOwnStep(site, w, key, t);
      } else {
        hide KeyOk, Step;
        StepOwn(site, w, k, t);
        FrameSame(site, w, Step(site, w, k, t), k, key);
      }
    case ForeignLease(value, holder) =>
      assert OwnLeases(site, Apply(site, w, m).leases, key) == OwnLeases(site, w.leases, key);
    case ForeignRelease(value) =>
      assert OwnLeases(site, Apply(site, w, m).leases, key) == OwnLeases(site, w.leases, key);
    case _ =>
  }

  lemma FrameSame(site: Site, w: World, w': World, k: Key, j: Key)
    requires SiteOk(site) && OnlyOwn(site, k, w, w') && j != k
    ensures Obj(w', j) == Obj(w, j) && PassOf(w', j) == PassOf(w, j)
    ensures OwnLeases(site, w'.leases, j) == OwnLeases(site, w.leases, j)
    ensures OwnClaims(site, w'.claims, j) == OwnClaims(site, w.claims, j)
  {
    assert site.keyOf(site.corr(j)) == Some(j) && site.keyOf(site.corr(k)) == Some(k);
    forall v ensures v in OwnLeases(site, w'.leases, j) <==> v in OwnLeases(site, w.leases, j) {
    }
    forall n ensures n in OwnClaims(site, w'.claims, j) <==> n in OwnClaims(site, w.claims, j) {
      var c := Claim(site.corr(j), n);
      assert n in OwnClaims(site, w.claims, j) <==> c in w.claims;
      assert n in OwnClaims(site, w'.claims, j) <==> c in w'.claims;
    }
  }

  /** One transient answer from any node of the rollback plan, and the delete
      pass ends with every claim, every Lease and the finalizer where they were,
      whatever else runs meanwhile. */
  lemma {:induction false} UnreachableNodeKeepsEverything(site: Site, w: World, key: Key, t: Turn, moves: seq<Move>)
    requires SiteOk(site) && Inv(site, w)
    requires PassOf(w, key).FinalRollback? && PassOf(w, key).todo != [] && t.exec.Unreachable?
    requires StillRunning(site, Step(site, w, key, t), moves, key)
    ensures var w' := Run(site, Step(site, w, key, t), moves);
      && (Keeping(PassOf(w', key)) || PassOf(w', key).Idle?)
      && OwnLeases(site, w'.leases, key) == OwnLeases(site, w.leases, key)
      && OwnClaims(site, w'.claims, key) == OwnClaims(site, w.claims, key)
      && key in w'.objects && w'.objects[key].finalizer
      && Inv(site, w')
    decreases |moves|
  {
    if moves == [] {
      assert KeyOk(site, w, key);
      assert Apply(site, w, PassStep(key, t)) == Step(site, w, key, t);
      ApplyOk(site, w, PassStep(key, t));
    } else {
      var before := moves[..|moves| - 1];
      forall i | 0 <= i < |before| ensures !PassOf(Run(site, Step(site, w, key, t), before[..i]), key).Idle? {
        assert before[..i] == moves[..i];
      }
      UnreachableNodeKeepsEverything(site, w, key, t, before);
      var u := Run(site, Step(site, w, key, t), before);
      assert !PassOf(u, key).Idle?;
      KeepingStep(site, u, moves[|moves| - 1], key);
      ApplyOk(site, u, moves[|moves| - 1]);
    }
  }

  // ---- what is never written ------------------------------------------------------------

  /** status.nodes never reaches the server: every write takes its base snapshot
      after the list was set, so the list is in no patch. */
  lemma NodeStatusNeverStored(site: Site, moves: seq<Move>, key: Key)
    requires SiteOk(site)
    ensures var w := Run(site, EmptyWorld, moves);
      key in w.objects ==> w.objects[key].status.nodes == []
  {
    RunOk(site, moves);
    assert KeyOk(site, Run(site, EmptyWorld, moves), key);
  }
}
