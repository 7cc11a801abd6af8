/** The end of a prefix migration (docs/design/dual-annotation-domain.md): it makes
    progress, never goes through absence, and once converged the legacy list can go. */
module Migration {
  import opened Objects
  import opened KeySets
  import opened Copies
  import opened Reconciling
  import opened PrefixMove

  // ------------------------------------------------------------------ progress

  /** Stamped under a legacy domain and not yet migrated. */
  predicate LegacyStamped(ks: KeySet, o: Obj) {
    ks.LegacyDomainOf(o).Some?
  }

  function LegacyCopies(ks: KeySet, s: Store): set<Key> {
    set k | k in s && LegacyStamped(ks, s[k])
  }

  /** No pass, not even one that fails halfway, adds to the copies still to migrate. */
  lemma PassAddsNoLegacyCopy(ks: KeySet, sk: Key, src: Obj, targets: set<string>, oc: string, before: Store, now: Store)
    requires ks.Sound()
    requires PartlySynced(ks, sk, src, targets, oc, before, now)
    ensures LegacyCopies(ks, now) <= LegacyCopies(ks, before)
    ensures |LegacyCopies(ks, now)| <= |LegacyCopies(ks, before)|
  {
    forall k | k in LegacyCopies(ks, now) ensures k in LegacyCopies(ks, before) {
      assert At(now, k) == At(before, k) || At(now, k) == SyncedAt(ks, sk, src, targets, oc, k, At(before, k));
      PlacedMeaning(ks, sk, src, At(before, k), oc);
      CopyLabelsLookup(ks, sk, src, oc);
    }
    Subset(LegacyCopies(ks, now), LegacyCopies(ks, before));
  }

  lemma Subset<T>(a: set<T>, b: set<T>)
    requires a <= b
    ensures |a| <= |b|
  {
    assert b == a + (b - a);
  }

  /** A full pass of a source leaves none of its own copies under a legacy domain,
      but for terminating ones outside the targets. */
  lemma PassMigratesAllItsCopies(ks: KeySet, sk: Key, src: Obj, targets: set<string>, oc: string,
                                 before: Store, after: Store, k: Key)
    requires ks.Sound() && ks.Clean(src.labels) && sk.ns != "" && sk.name != ""
    requires Named(ks, before, sk) && forall j :: j in before ==> ks.SingleStamp(before[j].labels)
    requires Synced(ks, sk, src, targets, oc, before, after)
    requires k in after && Doomed(ks, sk, after[k], oc) && LegacyStamped(ks, after[k])
    ensures k.ns !in targets && after[k].deleting && after[k].finalizers != []
  {
    var had := At(before, k);
    assert At(after, k) == SyncedAt(ks, sk, src, targets, oc, k, had);
    if IsTarget(sk, targets, k) {
      PlacedMeaning(ks, sk, src, had, oc);
      CopyLabelsLookup(ks, sk, src, oc);
      assert had.Some? && Untouchable(ks, sk, had.value, oc);
      OwnerReadingsAgree(ks, had.value, sk);
      assert false;
    }
    assert At(after, k) == SweptAt(ks, sk, targets, oc, k, had);
    assert Stamped(ks, sk, had.value);
  }

  /** In-place relabel only: a target namespace that held an owned copy holds one at
      every point of the pass, whatever fails. */
  lemma OwnedCopyIsNeverAbsent(ks: KeySet, sk: Key, src: Obj, targets: set<string>, oc: string,
                               before: Store, now: Store, ns: string)
    requires ks.Sound() && sk.ns != "" && sk.name != ""
    requires PartlySynced(ks, sk, src, targets, oc, before, now)
    requires ns in targets && Key(ns, sk.name) in before
    requires ks.OwnsCopy(before[Key(ns, sk.name)], sk, oc)
    ensures Key(ns, sk.name) in now && ks.OwnsCopy(now[Key(ns, sk.name)], sk, oc)
    ensures now[Key(ns, sk.name)].payload in {before[Key(ns, sk.name)].payload, src.payload}
  {
    var k := Key(ns, sk.name);
    assert At(now, k) == At(before, k) || At(now, k) == SyncedAt(ks, sk, src, targets, oc, k, At(before, k));
    PlacedMeaning(ks, sk, src, At(before, k), oc);
    if At(now, k) != At(before, k) {
      WrittenCopyIsRecognised(ks, sk, src, now[k], oc);
    }
  }

  // ------------------------------------------------- dropping the legacy list

  function Only(ks: KeySet): KeySet { KeySet(ks.primary, []) }

  ghost predicate LegacyFree(ks: KeySet, o: Obj) {
    forall k :: k in ks.legacy ==> FreeOf(k, o)
  }

  lemma PrimaryAndLegacy(ks: KeySet)
    ensures Only(ks).Each() == [ks.primary]
    ensures ks.Each()[0] == ks.primary && ks.Each()[1..] == ks.legacy
    ensures forall k :: k in ks.Each() <==> k == ks.primary || k in ks.legacy
    ensures ks.Sound() ==> Only(ks).Sound() && forall k :: k in ks.legacy ==> Apart(ks.primary, k) && Apart(k, ks.primary)
  {
    assert ks.primary in ks.Each();
    assert forall k :: k in ks.legacy ==> k in ks.Each();
  }

  lemma SameLabelReadings(ks: KeySet, o: Obj, sk: Key)
    requires ks.Sound() && LegacyFree(ks, o)
    ensures ks.KeysFor(o) == Only(ks).KeysFor(o)
    ensures ks.LegacyDomainOf(o) == None && Only(ks).LegacyDomainOf(o) == None
    ensures Stamped(ks, sk, o) <==> Stamped(Only(ks), sk, o)
  {
    PrimaryAndLegacy(ks);
    assert forall k :: k in ks.legacy ==> !Managed(k, o.labels) && !MatchesStamp(k, o.labels, sk);
    assert [ks.primary][1..] == [];
  }

  lemma SameAnnotationReadings(ks: KeySet, o: Obj)
    requires ks.Sound() && LegacyFree(ks, o)
    ensures ks.IsSource(o) <==> Only(ks).IsSource(o)
    ensures ks.SyncValue(o.annotations) == Only(ks).SyncValue(o.annotations)
    ensures ks.TargetClustersValue(o.annotations) == Only(ks).TargetClustersValue(o.annotations)
    ensures ks.CopyAnnotations(o) == Only(ks).CopyAnnotations(o)
  {
    PrimaryAndLegacy(ks);
    assert [ks.primary][1..] == [];
    assert forall k :: k in ks.legacy ==> FreeOf(k, o);
    forall l | l in o.annotations ensures ks.IsSyncKey(l) <==> Only(ks).IsSyncKey(l) {
      assert ks.IsSyncKey(l) ==> l == ks.primary.syncAnnotation;
      assert Only(ks).IsSyncKey(l) <==> l == ks.primary.syncAnnotation;
    }
  }

  lemma SameFinalizers(ks: KeySet, o: Obj)
    requires ks.Sound() && LegacyFree(ks, o)
    ensures ks.HasFinalizer(o) <==> Only(ks).HasFinalizer(o)
    ensures ks.MigratedFinalizers(o.finalizers) == Only(ks).MigratedFinalizers(o.finalizers)
    ensures ks.ReleasedFinalizers(o.finalizers) == Only(ks).ReleasedFinalizers(o.finalizers)
    ensures forall k :: k in ks.legacy ==>
              k.finalizer !in ks.MigratedFinalizers(o.finalizers) && k.finalizer !in ks.ReleasedFinalizers(o.finalizers)
  {
    PrimaryAndLegacy(ks);
    assert [ks.primary][1..] == [];
    assert forall k :: k in ks.legacy ==> FreeOf(k, o);
  }

  lemma SamePlaced(ks: KeySet, sk: Key, src: Obj, had: Option<Obj>, oc: string)
    requires ks.Sound() && LegacyFree(ks, src) && (had.Some? ==> LegacyFree(ks, had.value))
    ensures Judge(ks, sk, src, had, oc) == Judge(Only(ks), sk, src, had, oc)
    ensures Placed(ks, sk, src, had, oc) == Placed(Only(ks), sk, src, had, oc)
    ensures Placed(ks, sk, src, had, oc).Some? ==> LegacyFree(ks, Placed(ks, sk, src, had, oc).value)
  {
    SameAnnotationReadings(ks, src);
    if had.Some? {
      SameLabelReadings(ks, had.value, sk);
    }
    CopyIsLegacyFree(ks, sk, src, oc);
  }

  lemma CopyIsLegacyFree(ks: KeySet, sk: Key, src: Obj, oc: string)
    requires ks.Sound() && LegacyFree(ks, src)
    ensures forall k :: k in ks.legacy ==>
              && k.managedByLabel !in ks.CopyLabels(sk, src, oc) && k.originNSLabel !in ks.CopyLabels(sk, src, oc)
              && k.originNameLabel !in ks.CopyLabels(sk, src, oc) && k.originClusterLabel !in ks.CopyLabels(sk, src, oc)
              && k.syncAnnotation !in ks.CopyAnnotations(src) && k.targetClustersAnnotation !in ks.CopyAnnotations(src)
  {
    PrimaryAndLegacy(ks);
    forall k | k in ks.legacy ensures FreeOf(k, src) {}
  }

  lemma SameSwept(ks: KeySet, sk: Key, keep: set<string>, oc: string, k: Key, had: Option<Obj>)
    requires ks.Sound() && (had.Some? ==> LegacyFree(ks, had.value))
    ensures SweptAway(ks, sk, keep, oc, k, had) <==> SweptAway(Only(ks), sk, keep, oc, k, had)
    ensures SweptAt(ks, sk, keep, oc, k, had) == SweptAt(Only(ks), sk, keep, oc, k, had)
    ensures SweptAt(ks, sk, keep, oc, k, had).Some? ==> LegacyFree(ks, SweptAt(ks, sk, keep, oc, k, had).value)
  {
    if had.Some? {
      SameLabelReadings(ks, had.value, sk);
      assert forall k :: k in ks.legacy ==> FreeOf(k, had.value);
    }
  }

  lemma SameSynced(ks: KeySet, sk: Key, src: Obj, targets: set<string>, oc: string, k: Key, had: Option<Obj>)
    requires ks.Sound() && LegacyFree(ks, src) && (had.Some? ==> LegacyFree(ks, had.value))
    ensures SyncedAt(ks, sk, src, targets, oc, k, had) == SyncedAt(Only(ks), sk, src, targets, oc, k, had)
    ensures SyncWrites(ks, sk, src, targets, oc, k, had) <==> SyncWrites(Only(ks), sk, src, targets, oc, k, had)
    ensures SyncedAt(ks, sk, src, targets, oc, k, had).Some? ==>
              LegacyFree(ks, SyncedAt(ks, sk, src, targets, oc, k, had).value)
  {
    SamePlaced(ks, sk, src, had, oc);
    SameSwept(ks, sk, targets, oc, k, had);
  }

  function PrimaryOnly(cfg: Config): Config { cfg.(ks := Only(cfg.ks)) }

  lemma SameBranchTaken(cfg: Config, src: Obj)
    requires cfg.ks.Sound() && LegacyFree(cfg.ks, src)
    ensures BranchOf(cfg, Some(src)) == BranchOf(PrimaryOnly(cfg), Some(src))
    ensures TargetsText(cfg.ks, src) == TargetsText(Only(cfg.ks), src)
  {
    SameAnnotationReadings(cfg.ks, src);
    SameFinalizers(cfg.ks, src);
  }

  lemma SameScope(cfg: Config, nss: Namespaces, spokes: Spokes, sk: Key, sel: Selector, src: Obj, c: Cluster)
    requires cfg.ks.Sound() && LegacyFree(cfg.ks, src)
    ensures Scope(cfg, nss, spokes, sk, src, sel, c) == Scope(PrimaryOnly(cfg), nss, spokes, sk, src, sel, c)
  {
    SameAnnotationReadings(cfg.ks, src);
    assert Targets(cfg, nss, sk, sel) == Targets(PrimaryOnly(cfg), nss, sk, sel);
  }

  lemma SameReplicate(cfg: Config, nss: Namespaces, spokes: Spokes, sk: Key, branch: Branch, src: Obj,
                     c: Cluster, k: Key, had: Option<Obj>)
    requires cfg.ks.Sound() && LegacyFree(cfg.ks, src) && (had.Some? ==> LegacyFree(cfg.ks, had.value))
    requires branch.Replicate?
    ensures var after := BranchAt(cfg, nss, spokes, sk, branch, src, c, k, had);
            after == BranchAt(PrimaryOnly(cfg), nss, spokes, sk, branch, src, c, k, had)
            && (after.Some? ==> LegacyFree(cfg.ks, after.value))
    ensures BranchWrites(cfg, nss, spokes, sk, branch, src, c, k, had)
            <==> BranchWrites(PrimaryOnly(cfg), nss, spokes, sk, branch, src, c, k, had)
  {
    SameScope(cfg, nss, spokes, sk, branch.sel, src, c);
    var scope := Scope(cfg, nss, spokes, sk, src, branch.sel, c);
    if scope.Some? {
      SameSynced(cfg.ks, sk, src, scope.value.0, scope.value.1, k, had);
    }
  }

  lemma SameCleanUp(cfg: Config, nss: Namespaces, spokes: Spokes, sk: Key, branch: Branch, src: Obj,
                     c: Cluster, k: Key, had: Option<Obj>)
    requires cfg.ks.Sound() && LegacyFree(cfg.ks, src) && (had.Some? ==> LegacyFree(cfg.ks, had.value))
    requires branch.CleanUp?
    ensures var after := BranchAt(cfg, nss, spokes, sk, branch, src, c, k, had);
            after == BranchAt(PrimaryOnly(cfg), nss, spokes, sk, branch, src, c, k, had)
            && (after.Some? ==> LegacyFree(cfg.ks, after.value))
    ensures BranchWrites(cfg, nss, spokes, sk, branch, src, c, k, had)
            <==> BranchWrites(PrimaryOnly(cfg), nss, spokes, sk, branch, src, c, k, had)
  {
    hide SweptAt;
    hide SweptAway;
    hide KeySet.Sound;
    CleanUpBranch(cfg, nss, spokes, sk, src, c);
    CleanUpBranch(PrimaryOnly(cfg), nss, spokes, sk, src, c);
    hide BranchAt;
    hide BranchWrites;
    SameFinalizers(cfg.ks, src);
    SameSwept(cfg.ks, sk, {}, if c == cfg.hub then "" else cfg.hubUid, k, had);
  }

  lemma SameBranchAt(cfg: Config, nss: Namespaces, spokes: Spokes, sk: Key, branch: Branch, src: Obj,
                     c: Cluster, k: Key, had: Option<Obj>)
    requires cfg.ks.Sound() && LegacyFree(cfg.ks, src) && (had.Some? ==> LegacyFree(cfg.ks, had.value))
    ensures var after := BranchAt(cfg, nss, spokes, sk, branch, src, c, k, had);
            after == BranchAt(PrimaryOnly(cfg), nss, spokes, sk, branch, src, c, k, had)
            && (after.Some? ==> LegacyFree(cfg.ks, after.value))
    ensures BranchWrites(cfg, nss, spokes, sk, branch, src, c, k, had)
            <==> BranchWrites(PrimaryOnly(cfg), nss, spokes, sk, branch, src, c, k, had)
  {
    match branch {
      case Replicate(_) => SameReplicate(cfg, nss, spokes, sk, branch, src, c, k, had);
      case CleanUp => SameCleanUp(cfg, nss, spokes, sk, branch, src, c, k, had);
      case FixFinalizers => SameFinalizers(cfg.ks, src);
      case _ =>
    }
  }

  lemma SamePassAt(cfg: Config, nss: Namespaces, spokes: Spokes, sk: Key, src: Option<Obj>,
                   c: Cluster, k: Key, had: Option<Obj>)
    requires cfg.ks.Sound() && (src.Some? ==> LegacyFree(cfg.ks, src.value)) && (had.Some? ==> LegacyFree(cfg.ks, had.value))
    ensures PassAt(cfg, nss, spokes, sk, src, c, k, had) == PassAt(PrimaryOnly(cfg), nss, spokes, sk, src, c, k, had)
    ensures PassWrites(cfg, nss, spokes, sk, src, c, k, had) <==> PassWrites(PrimaryOnly(cfg), nss, spokes, sk, src, c, k, had)
    ensures PassAt(cfg, nss, spokes, sk, src, c, k, had).Some? ==>
              LegacyFree(cfg.ks, PassAt(cfg, nss, spokes, sk, src, c, k, had).value)
  {
    if src.Some? {
      SameBranchTaken(cfg, src.value);
      SameBranchAt(cfg, nss, spokes, sk, BranchOf(cfg, src), src.value, c, k, had);
    }
  }

  ghost predicate LegacyFreeWorld(ks: KeySet, w: World) {
    forall c, k :: k in StoreOf(w, c) ==> LegacyFree(ks, StoreOf(w, c)[k])
  }

  /** Dropping the old prefix is safe once converged: where no object carries a legacy
      annotation, label or finalizer, a pass leaves the same world and issues the same
      writes with or without the legacy list, and the world stays legacy-free. */
  lemma DroppingLegacyIsSafe(cfg: Config, nss: Namespaces, spokes: Spokes, sk: Key, w0: World, w1: World)
    requires cfg.ks.Sound() && LegacyFreeWorld(cfg.ks, w0)
    ensures Passed(cfg, nss, spokes, sk, w0, w1) <==> Passed(PrimaryOnly(cfg), nss, spokes, sk, w0, w1)
    ensures Quiet(cfg, nss, spokes, sk, w0) <==> Quiet(PrimaryOnly(cfg), nss, spokes, sk, w0)
    ensures Passed(cfg, nss, spokes, sk, w0, w1) ==> LegacyFreeWorld(cfg.ks, w1)
  {
    var src := At(StoreOf(w0, cfg.hub), sk);
    forall c: Cluster, k: Key
      ensures var had := At(StoreOf(w0, c), k);
        && PassAt(cfg, nss, spokes, sk, src, c, k, had) == PassAt(PrimaryOnly(cfg), nss, spokes, sk, src, c, k, had)
        && PassWrites(cfg, nss, spokes, sk, src, c, k, had) == PassWrites(PrimaryOnly(cfg), nss, spokes, sk, src, c, k, had)
        && (PassAt(cfg, nss, spokes, sk, src, c, k, had).Some? ==>
              LegacyFree(cfg.ks, PassAt(cfg, nss, spokes, sk, src, c, k, had).value))
    {
      SamePassAt(cfg, nss, spokes, sk, src, c, k, At(StoreOf(w0, c), k));
    }
    if Passed(cfg, nss, spokes, sk, w0, w1) {
      forall c, k | k in StoreOf(w1, c) ensures LegacyFree(cfg.ks, StoreOf(w1, c)[k]) {
        assert At(StoreOf(w1, c), k) == PassAt(cfg, nss, spokes, sk, src, c, k, At(StoreOf(w0, c), k));
      }
    }
  }

  /** Dropping it too early is not: a live source that carries the primary finalizer but
      is still annotated only under a legacy domain is torn down, copies and all. The
      sync annotation decides: under the primary list alone it is a source if and only
      if it carries the primary one. */
  lemma DroppingTooEarlyTearsDown(cfg: Config, nss: Namespaces, spokes: Spokes, sk: Key, src: Obj, k: Key, copy: Obj)
    requires cfg.ks.Sound() && !src.deleting && cfg.ks.IsSource(src)
    requires cfg.ks.primary.finalizer in src.finalizers
    requires k != sk && Stamped(Only(cfg.ks), sk, copy) && copy.finalizers == []
    ensures cfg.ks.primary.syncAnnotation in src.annotations
            <==> !BranchOf(PrimaryOnly(cfg), Some(src)).CleanUp?
    ensures cfg.ks.primary.syncAnnotation !in src.annotations ==>
              PassAt(PrimaryOnly(cfg), nss, spokes, sk, Some(src), cfg.hub, k, Some(copy)) == None
  {
    PrimaryAndLegacy(cfg.ks);
  }
}
