/** Whole runs: any interleaving of passes, operators and other lease holders. */
module PassRuns {
  import opened Text
  import opened ServiceObjects
  import opened PassMachine
  import opened PassInvariant
  import opened PassPreservation

  /** A step of one service leaves every other service, and every identifier
      held by anyone else, alone. */
  ghost predicate OnlyOwn(site: Site, key: Key, w: World, w': World) {
    && (forall j :: j != key ==> Obj(w', j) == Obj(w, j) && PassOf(w', j) == PassOf(w, j))
    && (forall v :: v in w.leases && w.leases[v] != site.corr(key) ==> v in w'.leases && w'.leases[v] == w.leases[v])
    && (forall v :: v in w'.leases && w'.leases[v] != site.corr(key) ==> v in w.leases && w'.leases[v] == w.leases[v])
    && (forall c :: c in w.claims && c.corr != site.corr(key) ==> c in w'.claims)
    && (forall c :: c in w'.claims && c.corr != site.corr(key) ==> c in w.claims)
    && LogOwn(key, w.log, w'.log)
  }

  /** At most one event is appended, and it is the service's own. */
  ghost predicate LogOwn(key: Key, log: seq<Event>, log': seq<Event>) {
    log' == log || (|log'| == |log| + 1 && log' == log + [log'[|log|]] && log'[|log|].key == key)
  }

  lemma IdleOwn(site: Site, w: World, key: Key, t: Turn)
    requires PassOf(w, key).Idle?
    ensures OnlyOwn(site, key, w, Step(site, w, key, t))
  {
    hide GoPlan, GoFinalRollback, FinalPlan, Reusable, WithRollback, PlanOrder;
  }

  lemma AddingFinalizerOwn(site: Site, w: World, key: Key, t: Turn)
    requires PassOf(w, key).AddingFinalizer?
    ensures OnlyOwn(site, key, w, Step(site, w, key, t))
  {
  }

  lemma RefusingOwn(site: Site, w: World, key: Key, t: Turn)
    requires PassOf(w, key).Refusing?
    ensures OnlyOwn(site, key, w, Step(site, w, key, t))
  {
  }

  lemma ClaimingIdOwn(site: Site, w: World, key: Key, t: Turn)
    requires PassOf(w, key).ClaimingId?
    ensures OnlyOwn(site, key, w, Step(site, w, key, t))
  {
  }

  lemma AwaitingIdOwn(site: Site, w: World, key: Key, t: Turn)
    requires PassOf(w, key).AwaitingId?
    ensures OnlyOwn(site, key, w, Step(site, w, key, t))
  {
  }

  lemma ListingLeasesOwn(site: Site, w: World, key: Key, t: Turn)
    requires PassOf(w, key).ListingLeases?
    ensures OnlyOwn(site, key, w, Step(site, w, key, t))
  {
  }

  lemma CreatingLeaseOwn(site: Site, w: World, key: Key, t: Turn)
    requires PassOf(w, key).CreatingLease?
    ensures OnlyOwn(site, key, w, Step(site, w, key, t))
  {
    hide GoPrefix, OrderedAttachments, Start;
  }

  lemma ReadingLeaseOwn(site: Site, w: World, key: Key, t: Turn)
    requires PassOf(w, key).ReadingLease?
    ensures OnlyOwn(site, key, w, Step(site, w, key, t))
  {
  }

  lemma ClaimingPrefixOwn(site: Site, w: World, key: Key, t: Turn)
    requires PassOf(w, key).ClaimingPrefix?
    ensures OnlyOwn(site, key, w, Step(site, w, key, t))
  {
  }

  lemma ListingClaimsOwn(site: Site, w: World, key: Key, t: Turn)
    requires PassOf(w, key).ListingClaims?
    ensures OnlyOwn(site, key, w, Step(site, w, key, t))
  {
  }

  lemma DeletingClaimsOwn(site: Site, w: World, key: Key, t: Turn)
    requires PassOf(w, key).DeletingClaims?
    ensures OnlyOwn(site, key, w, Step(site, w, key, t))
  {
  }

  lemma ListingOwnLeasesOwn(site: Site, w: World, key: Key, t: Turn)
    requires PassOf(w, key).ListingOwnLeases?
    ensures OnlyOwn(site, key, w, Step(site, w, key, t))
  {
  }

  lemma DeletingLeasesOwn(site: Site, w: World, key: Key, t: Turn)
    requires PassOf(w, key).DeletingLeases? && KeyOk(site, w, key)
    ensures OnlyOwn(site, key, w, Step(site, w, key, t))
  {
    hide GoReleased, Start, RecordOk, IdsOk;
  }

  lemma RemovingOwn(site: Site, w: World, key: Key, t: Turn)
    requires PassOf(w, key).Removing?
    ensures OnlyOwn(site, key, w, Step(site, w, key, t))
  {
  }

  lemma ApplyingOwn(site: Site, w: World, key: Key, t: Turn)
    requires PassOf(w, key).Applying?
    ensures OnlyOwn(site, key, w, Step(site, w, key, t))
  {
  }

  lemma RollingBackOwn(site: Site, w: World, key: Key, t: Turn)
    requires PassOf(w, key).RollingBack?
    ensures OnlyOwn(site, key, w, Step(site, w, key, t))
  {
  }

  lemma VerifyingOwn(site: Site, w: World, key: Key, t: Turn)
    requires PassOf(w, key).Verifying?
    ensures OnlyOwn(site, key, w, Step(site, w, key, t))
  {
  }

  lemma RecordingUpdateOwn(site: Site, w: World, key: Key, t: Turn)
    requires PassOf(w, key).RecordingUpdate?
    ensures OnlyOwn(site, key, w, Step(site, w, key, t))
  {
  }

  lemma ObservingOwn(site: Site, w: World, key: Key, t: Turn)
    requires PassOf(w, key).Observing?
    ensures OnlyOwn(site, key, w, Step(site, w, key, t))
  {
    hide AfterPath, Start;
  }

  lemma NotingDriftOwn(site: Site, w: World, key: Key, t: Turn)
    requires PassOf(w, key).NotingDrift?
    ensures OnlyOwn(site, key, w, Step(site, w, key, t))
  {
  }

  lemma ProbingOwn(site: Site, w: World, key: Key, t: Turn)
    requires PassOf(w, key).Probing?
    ensures OnlyOwn(site, key, w, Step(site, w, key, t))
  {
  }

  lemma RecordingOwn(site: Site, w: World, key: Key, t: Turn)
    requires PassOf(w, key).Recording?
    ensures OnlyOwn(site, key, w, Step(site, w, key, t))
  {
  }

  lemma FinalRollbackOwn(site: Site, w: World, key: Key, t: Turn)
    requires PassOf(w, key).FinalRollback?
    ensures OnlyOwn(site, key, w, Step(site, w, key, t))
  {
  }

  lemma NotingFinalizingOwn(site: Site, w: World, key: Key, t: Turn)
    requires PassOf(w, key).NotingFinalizing?
    ensures OnlyOwn(site, key, w, Step(site, w, key, t))
  {
  }

  lemma StrippingOwn(site: Site, w: World, key: Key, t: Turn)
    requires PassOf(w, key).Stripping?
    ensures OnlyOwn(site, key, w, Step(site, w, key, t))
  {
  }

  lemma StepOwn(site: Site, w: World, key: Key, t: Turn)
    requires KeyOk(site, w, key)
    ensures OnlyOwn(site, key, w, Step(site, w, key, t))
  {
    var p := PassOf(w, key);
    if p.Idle? { IdleOwn(site, w, key, t); }
    else if p.AddingFinalizer? { AddingFinalizerOwn(site, w, key, t); }
    else if p.Refusing? { RefusingOwn(site, w, key, t); }
    else if p.ClaimingId? { ClaimingIdOwn(site, w, key, t); }
    else if p.AwaitingId? { AwaitingIdOwn(site, w, key, t); }
    else if p.ListingLeases? { ListingLeasesOwn(site, w, key, t); }
    else if p.CreatingLease? { CreatingLeaseOwn(site, w, key, t); }
    else if p.ReadingLease? { ReadingLeaseOwn(site, w, key, t); }
    else if p.ClaimingPrefix? { ClaimingPrefixOwn(site, w, key, t); }
    else if p.ListingClaims? { ListingClaimsOwn(site, w, key, t); }
    else if p.DeletingClaims? { DeletingClaimsOwn(site, w, key, t); }
    else if p.ListingOwnLeases? { ListingOwnLeasesOwn(site, w, key, t); }
    else if p.DeletingLeases? { DeletingLeasesOwn(site, w, key, t); }
    else if p.Removing? { RemovingOwn(site, w, key, t); }
    else if p.Applying? { ApplyingOwn(site, w, key, t); }
    else if p.RollingBack? { RollingBackOwn(site, w, key, t); }
    else if p.Verifying? { VerifyingOwn(site, w, key, t); }
    else if p.RecordingUpdate? { RecordingUpdateOwn(site, w, key, t); }
    else if p.Observing? { ObservingOwn(site, w, key, t); }
    else if p.NotingDrift? { NotingDriftOwn(site, w, key, t); }
    else if p.Probing? { ProbingOwn(site, w, key, t); }
    else if p.Recording? { RecordingOwn(site, w, key, t); }
    else if p.FinalRollback? { FinalRollbackOwn(site, w, key, t); }
    else if p.NotingFinalizing? { NotingFinalizingOwn(site, w, key, t); }
    else { StrippingOwn(site, w, key, t); }
  }

  lemma FrameOk(site: Site, w: World, w': World, key: Key, j: Key)
    requires SiteOk(site) && OnlyOwn(site, key, w, w') && j != key && KeyOk(site, w, j)
    ensures KeyOk(site, w', j)
  {
    assert site.keyOf(site.corr(j)) == Some(j) && site.keyOf(site.corr(key)) == Some(key);
    forall v ensures v in OwnLeases(site, w'.leases, j) <==> v in OwnLeases(site, w.leases, j) {
    }
    forall n ensures n in OwnClaims(site, w'.claims, j) <==> n in OwnClaims(site, w.claims, j) {
      var c := Claim(site.corr(j), n);
      assert c in w.claims <==> c in w'.claims;
      assert n in OwnClaims(site, w.claims, j) <==> c in w.claims;
      assert n in OwnClaims(site, w'.claims, j) <==> c in w'.claims;
    }
    assert OwnClaims(site, w'.claims, j) == OwnClaims(site, w.claims, j);
  }

  /** Operators and other lease holders leave the pass of a service, and what it
      holds, alone. */
  lemma OutsideLeases(site: Site, w: World, m: Move, j: Key)
    requires SiteOk(site) && !m.PassStep?
    ensures var w' := Apply(site, w, m);
      OwnLeases(site, w'.leases, j) == OwnLeases(site, w.leases, j) && w'.claims == w.claims && PassOf(w', j) == PassOf(w, j)
  {
  }

  lemma OutsideOk(site: Site, w: World, m: Move, j: Key)
    requires SiteOk(site) && KeyOk(site, w, j) && !m.PassStep?
    ensures KeyOk(site, Apply(site, w, m), j)
  {
    OutsideLeases(site, w, m, j);
    if m.Create? { CreateOk(site, w, m, j); }
    else if m.Edit? { EditOk(site, w, m, j); }
    else if m.Delete? { DeleteOk(site, w, m, j); }
    else { assert Obj(Apply(site, w, m), j) == Obj(w, j); }
  }

  lemma CreateOk(site: Site, w: World, m: Move, j: Key)
    requires SiteOk(site) && KeyOk(site, w, j) && m.Create?
    ensures KeyOk(site, Apply(site, w, m), j)
  {
  }

  lemma EditOk(site: Site, w: World, m: Move, j: Key)
    requires SiteOk(site) && KeyOk(site, w, j) && m.Edit?
    ensures KeyOk(site, Apply(site, w, m), j)
  {
    hide OwnLeases, OwnClaims, WorkOk, RecordOk, Holds, IdsOk;
  }

  lemma DeleteOk(site: Site, w: World, m: Move, j: Key)
    requires SiteOk(site) && KeyOk(site, w, j) && m.Delete?
    ensures KeyOk(site, Apply(site, w, m), j)
  {
    hide OwnLeases, OwnClaims, PassOk, RecordOk, IdsOk;
    if j in w.objects && m.key == j && w.objects[j].finalizer {
      MarkedOk(site, j, w.objects[j], OwnLeases(site, w.leases, j), OwnClaims(site, w.claims, j), PassOf(w, j));
    }
  }

  lemma MarkedOk(site: Site, key: Key, obj: Service, own: set<int>, claims: set<ClaimName>, pass: Pass)
    requires CellOk(site, key, Some(obj), own, claims, pass) && obj.finalizer
    ensures CellOk(site, key, Some(obj.(deleting := true)), own, claims, pass)
  {
  }

  lemma ApplyOk(site: Site, w: World, m: Move)
    requires SiteOk(site) && Inv(site, w)
    ensures Inv(site, Apply(site, w, m))
  {
    forall j ensures KeyOk(site, Apply(site, w, m), j) {
      assert KeyOk(site, w, j);
      match m
      case PassStep(key, t) =>
        assert KeyOk(site, w, key);
        if j == key { StepOk(site, w, key, t); }
        else { StepOwn(site, w, key, t); FrameOk(site, w, Step(site, w, key, t), key, j); }
      case _ => OutsideOk(site, w, m, j);
    }
  }

  lemma EmptyOk(site: Site)
    ensures Inv(site, EmptyWorld)
  {
    forall j ensures KeyOk(site, EmptyWorld, j) {
      assert OwnLeases(site, EmptyWorld.leases, j) == {};
      assert OwnClaims(site, EmptyWorld.claims, j) == {};
    }
  }

  /** Every run from an empty cluster keeps the invariant. */
  lemma {:induction false} RunOk(site: Site, moves: seq<Move>)
    requires SiteOk(site)
    ensures Inv(site, Run(site, EmptyWorld, moves))
    decreases |moves|
  {
    if moves == [] {
      EmptyOk(site);
    } else {
      RunOk(site, moves[..|moves| - 1]);
      ApplyOk(site, Run(site, EmptyWorld, moves[..|moves| - 1]), moves[|moves| - 1]);
    }
  }
}
