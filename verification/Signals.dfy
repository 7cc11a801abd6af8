/** The two signals after which the legacy prefix is meant to be dropped
    (docs/design/dual-annotation-domain.md), and what they leave out. */
module Signals {
  import opened Objects
  import opened Keys
  import opened KeySets
  import opened Copies
  import opened Reconciling
  import opened Migration

  /** Both signals clear: the object is not stamped as a legacy copy and carries no legacy
      sync annotation. */
  ghost predicate SignalsClear(ks: KeySet, o: Obj) {
    forall k :: k in ks.legacy ==> !Managed(k, o.labels) && k.syncAnnotation !in o.annotations
  }

  ghost predicate NoLegacyFinalizer(ks: KeySet, fs: seq<string>) {
    forall k :: k in ks.legacy ==> k.finalizer !in fs
  }

  /** The clusters are listed under the primary key, or under none. */
  ghost predicate NoLegacyTargets(ks: KeySet, ann: Labels) {
    ks.primary.targetClustersAnnotation in ann || forall k :: k in ks.legacy ==> k.targetClustersAnnotation !in ann
  }

  // ------------------------------------------------------------------ readings

  lemma ClearLabels(ks: KeySet, o: Obj, sk: Key)
    requires SignalsClear(ks, o)
    ensures ks.KeysFor(o) == Only(ks).KeysFor(o)
    ensures ks.LegacyDomainOf(o) == None && Only(ks).LegacyDomainOf(o) == None
    ensures Stamped(ks, sk, o) <==> Stamped(Only(ks), sk, o)
  {
    PrimaryAndLegacy(ks);
    assert [ks.primary][1..] == [];
  }

  lemma ClearAnnotations(ks: KeySet, o: Obj)
    requires SignalsClear(ks, o)
    ensures ks.IsSource(o) <==> Only(ks).IsSource(o)
    ensures ks.SyncValue(o.annotations) == Only(ks).SyncValue(o.annotations)
    ensures ks.CopyAnnotations(o) == Only(ks).CopyAnnotations(o)
  {
    PrimaryAndLegacy(ks);
    assert [ks.primary][1..] == [];
    forall l | l in o.annotations ensures ks.IsSyncKey(l) <==> Only(ks).IsSyncKey(l) {
      assert ks.IsSyncKey(l) ==> l == ks.primary.syncAnnotation;
      assert Only(ks).IsSyncKey(l) <==> l == ks.primary.syncAnnotation;
    }
  }

  lemma FinalizersAlike(ks: KeySet, o: Obj)
    requires ks.Sound() && NoLegacyFinalizer(ks, o.finalizers)
    ensures ks.HasFinalizer(o) <==> Only(ks).HasFinalizer(o)
    ensures ks.MigratedFinalizers(o.finalizers) == Only(ks).MigratedFinalizers(o.finalizers)
    ensures ks.ReleasedFinalizers(o.finalizers) == Only(ks).ReleasedFinalizers(o.finalizers)
  {
    PrimaryAndLegacy(ks);
    assert [ks.primary][1..] == [];
  }

  lemma BranchAlike(cfg: Config, o: Obj)
    requires cfg.ks.Sound() && SignalsClear(cfg.ks, o) && NoLegacyFinalizer(cfg.ks, o.finalizers)
    ensures BranchOf(cfg, Some(o)) == BranchOf(PrimaryOnly(cfg), Some(o))
  {
    ClearAnnotations(cfg.ks, o);
    FinalizersAlike(cfg.ks, o);
  }

  // -------------------------------------------------------------- one key of a pass

  lemma SyncedAlike(ks: KeySet, sk: Key, src: Obj, targets: set<string>, oc: string, k: Key, had: Option<Obj>)
    requires SignalsClear(ks, src) && (had.Some? ==> SignalsClear(ks, had.value))
    ensures SweptAt(ks, sk, targets, oc, k, had) == SweptAt(Only(ks), sk, targets, oc, k, had)
    ensures SyncedAt(ks, sk, src, targets, oc, k, had) == SyncedAt(Only(ks), sk, src, targets, oc, k, had)
  {
    ClearAnnotations(ks, src);
    if had.Some? {
      ClearLabels(ks, had.value, sk);
    }
    hide SignalsClear;
    hide Stamped;
  }

  // --------------------------------------------------------------- the hub

  /** On the hub the target-clusters annotation plays no part. */
  lemma HubAlike(cfg: Config, nss: Namespaces, spokes: Spokes, sk: Key, branch: Branch, o: Obj, k: Key, had: Option<Obj>)
    requires cfg.ks.Sound() && SignalsClear(cfg.ks, o) && NoLegacyFinalizer(cfg.ks, o.finalizers)
    requires had.Some? ==> SignalsClear(cfg.ks, had.value)
    ensures BranchAt(cfg, nss, spokes, sk, branch, o, cfg.hub, k, had)
         == BranchAt(PrimaryOnly(cfg), nss, spokes, sk, branch, o, cfg.hub, k, had)
  {
    hide SyncedAt;
    hide SweptAt;
    hide SweptAway;
    hide SyncWrites;
    hide SignalsClear;
    hide KeySet.Sound;
    hide KeySet.MigratedFinalizers;
    hide KeySet.ReleasedFinalizers;
    hide NoLegacyFinalizer;
    var only := PrimaryOnly(cfg);
    FinalizersAlike(cfg.ks, o);
    match branch {
      case Replicate(sel) =>
        assert Targets(cfg, nss, sk, sel) == Targets(only, nss, sk, sel);
        ReplicateScope(cfg, nss, spokes, sk, sel, o, cfg.hub);
        ReplicateScope(only, nss, spokes, sk, sel, o, cfg.hub);
        SyncedAlike(cfg.ks, sk, o, Targets(cfg, nss, sk, sel), "", k, had);
      case CleanUp =>
        CleanUpBranch(cfg, nss, spokes, sk, o, cfg.hub);
        CleanUpBranch(only, nss, spokes, sk, o, cfg.hub);
        SyncedAlike(cfg.ks, sk, o, {}, "", k, had);
      case FixFinalizers =>
        FixBranch(cfg, nss, spokes, sk, o, cfg.hub);
        FixBranch(only, nss, spokes, sk, o, cfg.hub);
      case _ =>
    }
    hide Targets;
    hide KeySet.ReleasedFinalizers;
  }

  // -------------------------------------------------------------- one spoke key

  /** An object that the legacy list makes a pass treat otherwise. At a target key, one stamped
      only under a legacy domain, unless both ways it is overwritten (the source's own, and
      adoptable) or both ways left alone. Elsewhere, one that is deleted only with the list. */
  predicate ReadOtherwise(ks: KeySet, sk: Key, targets: set<string>, oc: string, k: Key, had: Option<Obj>) {
    && had.Some?
    && if IsTarget(sk, targets, k) then ks.LegacyDomainOf(had.value).Some? && ks.OwnsCopy(had.value, sk, oc) != IsAdoptable(had.value)
       else
         && SweptAway(ks, sk, targets, oc, k, had) && !SweptAway(Only(ks), sk, targets, oc, k, had)
         && AfterDelete(had.value) != had
  }

  lemma UnderPrimary(ks: KeySet, e: Obj)
    requires ks.LegacyDomainOf(e).None?
    ensures ks.KeysFor(e) == Only(ks).KeysFor(e) && Only(ks).LegacyDomainOf(e).None?
  {
    PrimaryAndLegacy(ks);
    assert [ks.primary][1..] == [];
  }

  lemma UnderLegacy(ks: KeySet, e: Obj)
    requires ks.LegacyDomainOf(e).Some?
    ensures ks.IsManagedCopy(e) && !Only(ks).IsManagedCopy(e)
  {
    PrimaryAndLegacy(ks);
    assert [ks.primary][1..] == [];
  }

  lemma PlacedAlikeIff(ks: KeySet, sk: Key, src: Obj, oc: string, e: Obj)
    requires ks.Sound() && SignalsClear(ks, src)
    ensures Placed(ks, sk, src, Some(e), oc) == Placed(Only(ks), sk, src, Some(e), oc)
            <==> !(ks.LegacyDomainOf(e).Some? && ks.OwnsCopy(e, sk, oc) != IsAdoptable(e))
  {
    ClearAnnotations(ks, src);
    PrimaryAndLegacy(ks);
    if ks.LegacyDomainOf(e).Some? {
      UnderLegacy(ks, e);
      AdoptionChanges(Only(ks), sk, src, e, oc);
      if ks.OwnsCopy(e, sk, oc) {
        LegacyCopyIsRewritten(ks, sk, src, e, oc);
      }
    } else {
      UnderPrimary(ks, e);
    }
    hide KeySet.Sound;
    hide SignalsClear;
    hide KeySet.LegacyDomainOf;
    hide KeySet.CopyAnnotations;
    hide IsAdoptable;
  }

  lemma SweptMore(ks: KeySet, sk: Key, targets: set<string>, oc: string, k: Key, had: Option<Obj>)
    ensures SweptAway(Only(ks), sk, targets, oc, k, had) ==> SweptAway(ks, sk, targets, oc, k, had)
  {
    PrimaryAndLegacy(ks);
    assert [ks.primary][1..] == [];
  }

  /** The two controllers leave a key alike exactly when neither reads its object otherwise. */
  lemma KeyAlikeIff(ks: KeySet, sk: Key, src: Obj, targets: set<string>, oc: string, k: Key, had: Option<Obj>)
    requires ks.Sound() && SignalsClear(ks, src)
    ensures SyncedAt(ks, sk, src, targets, oc, k, had) == SyncedAt(Only(ks), sk, src, targets, oc, k, had)
            <==> !ReadOtherwise(ks, sk, targets, oc, k, had)
  {
    if had.None? {
      ClearAnnotations(ks, src);
    } else if IsTarget(sk, targets, k) {
      PlacedAlikeIff(ks, sk, src, oc, had.value);
      hide Placed;
    } else {
      SweptMore(ks, sk, targets, oc, k, had);
      hide Doomed;
    }
    hide SignalsClear;
    hide KeySet.Sound;
    hide KeySet.LegacyDomainOf;
    hide IsAdoptable;
  }

  // -------------------------------------------------------------- one pass

  /** What agreement asks of key k on spoke c: a pass that would reach it reads its object the
      same; and if only the legacy annotation leads there, it would change nothing. */
  predicate SpokeAgreesAt(cfg: Config, nss: Namespaces, spokes: Spokes, sk: Key, branch: Branch, o: Obj,
                          c: Cluster, k: Key, had: Option<Obj>) {
    match branch
    case Replicate(sel) =>
      (match Scope(cfg, nss, spokes, sk, o, sel, c)
       case None => true
       case Some((targets, oc)) =>
         if Only(cfg.ks).TargetClustersValue(o.annotations).Some? then !ReadOtherwise(cfg.ks, sk, targets, oc, k, had)
         else SyncedAt(cfg.ks, sk, o, targets, oc, k, had) == had)
    case CleanUp => Reached(spokes, c) ==> !ReadOtherwise(cfg.ks, sk, {}, cfg.hubUid, k, had)
    case _ => true
  }

  /** The primary key is read first. */
  lemma PrimaryTargetsFirst(ks: KeySet, ann: Labels)
    ensures Only(ks).TargetClustersValue(ann).Some? ==> ks.TargetClustersValue(ann) == Only(ks).TargetClustersValue(ann)
    ensures Only(ks).TargetClustersValue(ann).Some? <==> ks.primary.targetClustersAnnotation in ann
  {
    PrimaryAndLegacy(ks);
    assert [ks.primary][1..] == [];
  }

  lemma ReplicateAlikeIff(cfg: Config, nss: Namespaces, spokes: Spokes, sk: Key, sel: Selector, o: Obj,
                          c: Cluster, k: Key, had: Option<Obj>)
    requires cfg.ks.Sound() && SignalsClear(cfg.ks, o) && c != cfg.hub
    ensures SpokeAgreesAt(cfg, nss, spokes, sk, Replicate(sel), o, c, k, had) <==>
              BranchAt(cfg, nss, spokes, sk, Replicate(sel), o, c, k, had)
                == BranchAt(PrimaryOnly(cfg), nss, spokes, sk, Replicate(sel), o, c, k, had)
  {
    var only := PrimaryOnly(cfg);
    hide SyncedAt;
    hide SignalsClear;
    hide ReadOtherwise;
    hide DestsOn;
    hide KeySet.Sound;
    PrimaryTargetsFirst(cfg.ks, o.annotations);
    ReplicateScope(cfg, nss, spokes, sk, sel, o, c);
    ReplicateScope(only, nss, spokes, sk, sel, o, c);
    hide BranchAt;
    hide BranchWrites;
    var scope := Scope(cfg, nss, spokes, sk, o, sel, c);
    if scope.Some? {
      KeyAlikeIff(cfg.ks, sk, o, scope.value.0, scope.value.1, k, had);
    }
  }

  lemma CleanUpAlikeIff(cfg: Config, nss: Namespaces, spokes: Spokes, sk: Key, o: Obj, c: Cluster, k: Key, had: Option<Obj>)
    requires cfg.ks.Sound() && SignalsClear(cfg.ks, o) && c != cfg.hub
    ensures SpokeAgreesAt(cfg, nss, spokes, sk, CleanUp, o, c, k, had) <==>
              BranchAt(cfg, nss, spokes, sk, CleanUp, o, c, k, had)
                == BranchAt(PrimaryOnly(cfg), nss, spokes, sk, CleanUp, o, c, k, had)
  {
    hide SyncedAt;
    hide SignalsClear;
    hide ReadOtherwise;
    hide KeySet.Sound;
    CleanUpBranch(cfg, nss, spokes, sk, o, c);
    CleanUpBranch(PrimaryOnly(cfg), nss, spokes, sk, o, c);
    hide BranchAt;
    hide BranchWrites;
    KeyAlikeIff(cfg.ks, sk, o, {}, cfg.hubUid, k, had);
  }

  lemma SpokeAlikeIff(cfg: Config, nss: Namespaces, spokes: Spokes, sk: Key, branch: Branch, o: Obj,
                      c: Cluster, k: Key, had: Option<Obj>)
    requires cfg.ks.Sound() && SignalsClear(cfg.ks, o) && c != cfg.hub
    ensures SpokeAgreesAt(cfg, nss, spokes, sk, branch, o, c, k, had) <==>
              BranchAt(cfg, nss, spokes, sk, branch, o, c, k, had)
                == BranchAt(PrimaryOnly(cfg), nss, spokes, sk, branch, o, c, k, had)
  {
    match branch {
      case Replicate(sel) =>
        hide BranchAt;
        hide SpokeAgreesAt;
        ReplicateAlikeIff(cfg, nss, spokes, sk, sel, o, c, k, had);
      case CleanUp =>
        hide BranchAt;
        hide SpokeAgreesAt;
        CleanUpAlikeIff(cfg, nss, spokes, sk, o, c, k, had);
      case _ =>
    }
  }

  /** A pass for sk leaves every key of every cluster the same with and without the legacy list,
      through the same registered spokes. */
  ghost predicate PassesAgree(cfg: Config, nss: Namespaces, spokes: Spokes, sk: Key, w: World) {
    var src := At(StoreOf(w, cfg.hub), sk);
    forall c: Cluster, k: Key :: PassAt(cfg, nss, spokes, sk, src, c, k, At(StoreOf(w, c), k))
                              == PassAt(PrimaryOnly(cfg), nss, spokes, sk, src, c, k, At(StoreOf(w, c), k))
  }

  ghost predicate SpokesAgree(cfg: Config, nss: Namespaces, spokes: Spokes, sk: Key, o: Obj, w: World) {
    forall c: Cluster, k: Key :: c != cfg.hub ==>
      SpokeAgreesAt(cfg, nss, spokes, sk, BranchOf(cfg, Some(o)), o, c, k, At(StoreOf(w, c), k))
  }

  /** Both signals are read off the hub. */
  ghost predicate HubClear(cfg: Config, w: World) {
    forall k :: k in StoreOf(w, cfg.hub) ==> SignalsClear(cfg.ks, StoreOf(w, cfg.hub)[k])
  }

  // -------------------------------------------------------------------- the rest  // -------------------------------------------------------------------- the rest

  /** An object with a legacy finalizer is cleaned up or migrated, never left as it is. */
  lemma LegacyFinalizerActs(cfg: Config, o: Obj, d: Keys)
    requires cfg.ks.Sound() && d in cfg.ks.legacy && d.finalizer in o.finalizers
    ensures BranchOf(cfg, Some(o)).CleanUp? || BranchOf(cfg, Some(o)).FixFinalizers?
    ensures d.finalizer !in cfg.ks.MigratedFinalizers(o.finalizers)
    ensures d.finalizer !in cfg.ks.ReleasedFinalizers(o.finalizers)
  {
    PrimaryAndLegacy(cfg.ks);
    MigratedFinalizersMeaning(cfg.ks, o.finalizers);
    assert d in cfg.ks.Each();
    assert cfg.ks.HasFinalizer(o);
    hide KeySet.Sound;
    hide KeySet.MigratedFinalizers;
    hide KeySet.IsSource;
    hide SelectorText;
  }

  lemma WithListItGoes(cfg: Config, nss: Namespaces, spokes: Spokes, sk: Key, o: Obj, d: Keys)
    requires cfg.ks.Sound() && d in cfg.ks.legacy && d.finalizer in o.finalizers
    ensures var now := PassAt(cfg, nss, spokes, sk, Some(o), cfg.hub, sk, Some(o));
            now.Some? ==> d.finalizer !in now.value.finalizers
  {
    LegacyFinalizerActs(cfg, o, d);
    FixBranch(cfg, nss, spokes, sk, o, cfg.hub);
    CleanUpBranch(cfg, nss, spokes, sk, o, cfg.hub);
    hide BranchAt;
    hide BranchWrites;
    hide BranchOf;
    hide SweptAt;
    hide KeySet.Sound;
    hide KeySet.MigratedFinalizers;
    hide KeySet.ReleasedFinalizers;
  }

  lemma WithoutListItStays(cfg: Config, nss: Namespaces, spokes: Spokes, sk: Key, o: Obj, f: string)
    requires f in o.finalizers && f != cfg.ks.primary.finalizer
    ensures var now := PassAt(PrimaryOnly(cfg), nss, spokes, sk, Some(o), cfg.hub, sk, Some(o));
            now.Some? && f in now.value.finalizers
  {
    var only := PrimaryOnly(cfg);
    PrimaryAndLegacy(cfg.ks);
    assert forall k :: k in only.ks.Each() ==> k == cfg.ks.primary;
    FixBranch(only, nss, spokes, sk, o, cfg.hub);
    CleanUpBranch(only, nss, spokes, sk, o, cfg.hub);
    match BranchOf(only, Some(o)) {
      case Replicate(sel) => ReplicateScope(only, nss, spokes, sk, sel, o, cfg.hub);
      case _ =>
    }
    hide SelectorText;
    hide Stamped;
    hide Foreign;
  }

  /** Any legacy finalizer makes a difference to the object itself: with the list it goes,
      without it stays. */
  lemma LegacyFinalizerTells(cfg: Config, nss: Namespaces, spokes: Spokes, sk: Key, o: Obj)
    requires cfg.ks.Sound() && !NoLegacyFinalizer(cfg.ks, o.finalizers)
    ensures PassAt(cfg, nss, spokes, sk, Some(o), cfg.hub, sk, Some(o))
         != PassAt(PrimaryOnly(cfg), nss, spokes, sk, Some(o), cfg.hub, sk, Some(o))
  {
    var d :| d in cfg.ks.legacy && d.finalizer in o.finalizers;
    PrimaryAndLegacy(cfg.ks);
    hide PassAt;
    WithListItGoes(cfg, nss, spokes, sk, o, d);
    WithoutListItStays(cfg, nss, spokes, sk, o, d.finalizer);
  }

  /** The signals are not all of it. With both clear on the hub, a pass leaves every key of
      every cluster the same with and without the legacy list if and only if the source has no
      legacy finalizer, and no spoke key the pass would reach is read otherwise or reached only
      through the legacy annotation to some effect. */
  lemma PassesAgreeIff(cfg: Config, nss: Namespaces, spokes: Spokes, sk: Key, w: World)
    requires cfg.ks.Sound() && HubClear(cfg, w) && sk in StoreOf(w, cfg.hub)
    ensures var o := StoreOf(w, cfg.hub)[sk];
            PassesAgree(cfg, nss, spokes, sk, w) <==>
              NoLegacyFinalizer(cfg.ks, o.finalizers) && SpokesAgree(cfg, nss, spokes, sk, o, w)
  {
    var o := StoreOf(w, cfg.hub)[sk];
    hide KeySet.Sound;
    hide SignalsClear;
    hide BranchAt;
    hide SpokeAgreesAt;
    if !NoLegacyFinalizer(cfg.ks, o.finalizers) {
      LegacyFinalizerTells(cfg, nss, spokes, sk, o);
      assert At(StoreOf(w, cfg.hub), sk) == Some(o);
    } else {
      BranchAlike(cfg, o);
      hide BranchOf;
      hide NoLegacyFinalizer;
      forall c: Cluster, k: Key
        ensures PassAt(cfg, nss, spokes, sk, Some(o), c, k, At(StoreOf(w, c), k))
             == PassAt(PrimaryOnly(cfg), nss, spokes, sk, Some(o), c, k, At(StoreOf(w, c), k))
             <==> (c != cfg.hub ==> SpokeAgreesAt(cfg, nss, spokes, sk, BranchOf(cfg, Some(o)), o, c, k, At(StoreOf(w, c), k)))
      {
        if c == cfg.hub {
          HubAlike(cfg, nss, spokes, sk, BranchOf(cfg, Some(o)), o, k, At(StoreOf(w, c), k));
        } else {
          SpokeAlikeIff(cfg, nss, spokes, sk, BranchOf(cfg, Some(o)), o, c, k, At(StoreOf(w, c), k));
        }
      }
    }
  }

  // -------------------------------------------------------------- credentials

  /** hasCredentialLabel */
  predicate HasCredentialLabel(ks: KeySet, labels: Labels) {
    exists d :: d in ks.Each() && Lookup(labels, d.credentialLabel) != ""
  }

  /** A credential Secret's labels, and the cluster it leads to. */
  datatype Credential = Credential(labels: Labels, cluster: Cluster)

  /** The spokes a controller registers, if every credential it sees is vetted. */
  function Registered(ks: KeySet, creds: map<string, Credential>): map<string, Cluster> {
    map id | id in creds && HasCredentialLabel(ks, creds[id].labels) :: creds[id].cluster
  }

  /** The same spokes are registered with and without the legacy list exactly when every
      credential carries the primary label, or no honoured one. */
  lemma SameSpokesIff(ks: KeySet, creds: map<string, Credential>)
    ensures Registered(ks, creds) == Registered(Only(ks), creds)
            <==> forall id :: id in creds && HasCredentialLabel(ks, creds[id].labels) ==>
                   Lookup(creds[id].labels, ks.primary.credentialLabel) != ""
  {
    PrimaryAndLegacy(ks);
    assert forall labels: Labels :: HasCredentialLabel(Only(ks), labels) <==> Lookup(labels, ks.primary.credentialLabel) != "" by {
      assert Only(ks).Each()[0] == ks.primary;
    }
    if Registered(ks, creds) == Registered(Only(ks), creds) {
      forall id | id in creds && HasCredentialLabel(ks, creds[id].labels)
        ensures Lookup(creds[id].labels, ks.primary.credentialLabel) != ""
      {
        assert id in Registered(Only(ks), creds);
      }
    }
  }

  /** A source that fails: deleting, with both signals clear, held by both finalizers, as an
      older release leaves it after a rollback. With the list it is freed; without, it keeps the
      legacy finalizer and no pass will ever touch it again. */
  lemma StuckAfterDropping(cfg: Config, nss: Namespaces, spokes: Spokes, sk: Key, was: Keys, data: Payload)
    requires cfg.ks.Sound() && cfg.ks.legacy == [was]
    ensures var o := Obj(map[], map[], [cfg.ks.primary.finalizer, was.finalizer], true, data);
            var stuck := o.(finalizers := [was.finalizer]);
            && SignalsClear(cfg.ks, o) && NoLegacyTargets(cfg.ks, o.annotations)
            && PassAt(cfg, nss, spokes, sk, Some(o), cfg.hub, sk, Some(o)) == None
            && PassAt(PrimaryOnly(cfg), nss, spokes, sk, Some(o), cfg.hub, sk, Some(o)) == Some(stuck)
            && BranchOf(PrimaryOnly(cfg), Some(stuck)) == Nothing
  {
    var ks, o := cfg.ks, Obj(map[], map[], [cfg.ks.primary.finalizer, was.finalizer], true, data);
    PrimaryAndLegacy(ks);
    assert ks.legacy[0] == was && was in ks.Each() && ks.primary in ks.Each();
    assert ks.ReleasedFinalizers(o.finalizers) == [] by {
      assert ks.Each() == [ks.primary, was] && [ks.primary, was][1..] == [was] && [was][1..] == [];
      assert Remove(o.finalizers, ks.primary.finalizer) == [was.finalizer] by {
        assert o.finalizers[1..] == [was.finalizer] && [was.finalizer][1..] == [];
      }
      assert Remove([was.finalizer], was.finalizer) == [];
    }
    assert Only(ks).ReleasedFinalizers(o.finalizers) == [was.finalizer] by {
      assert [ks.primary][1..] == [];
      assert o.finalizers[1..] == [was.finalizer] && [was.finalizer][1..] == [];
    }
    hide KeySet.ReleasedFinalizers;
    hide KeySet.MigratedFinalizers;
    hide KeySet.Sound;
    hide SelectorText;
    hide KeySet.IsSource;
    assert ks.HasFinalizer(o) && Only(ks).HasFinalizer(o) by {
      assert Only(ks).Each()[0] == ks.primary;
    }
    assert !Only(ks).HasFinalizer(o.(finalizers := [was.finalizer]));
    hide KeySet.HasFinalizer;
    CleanUpBranch(cfg, nss, spokes, sk, o, cfg.hub);
    CleanUpBranch(PrimaryOnly(cfg), nss, spokes, sk, o, cfg.hub);
    hide BranchAt;
    hide BranchWrites;
    hide SweptAt;
  }
}
