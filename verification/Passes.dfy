/** What one pass achieves, and what two passes in a row settle. */
module Passes {
  import opened Objects
  import opened KeySets
  import opened Copies
  import opened Reconciling

  // ------------------------------------------------------------ one sync pass

  /** What a live, up-to-date copy of src looks like. */
  ghost predicate IsCopyOf(ks: KeySet, sk: Key, src: Obj, o: Obj) {
    && o.payload == src.payload
    && o.annotations == ks.CopyAnnotations(src)
    && ks.CopyOrigin(o) == Some(sk)
    && ks.LegacyDomainOf(o) == None
    && !ks.IsSource(o)
    && ks.SingleStamp(o.labels)
    && (forall l :: l in src.labels ==> l in o.labels && o.labels[l] == src.labels[l])
  }

  lemma RewrittenIsCopy(ks: KeySet, sk: Key, src: Obj, o: Obj, oc: string)
    requires ks.Sound() && ks.Clean(src.labels) && sk.ns != "" && sk.name != ""
    requires o.labels == ks.CopyLabels(sk, src, oc) && o.annotations == ks.CopyAnnotations(src)
    requires o.payload == src.payload
    ensures IsCopyOf(ks, sk, src, o)
  {
    WrittenCopyIsRecognised(ks, sk, src, o, oc);
    CleanGivesSingleStamp(ks, sk, src, oc);
    assert ks.primary in ks.Each();
  }

  /** Exactness and frame. After a failure-free pass every target key holds the copy,
      unless it held an object the controller must leave alone, which is unchanged;
      no copy of this source is left elsewhere, except one some finalizer still holds,
      and that one is terminating; every other object is untouched. */
  lemma SyncIsExact(ks: KeySet, sk: Key, src: Obj, targets: set<string>, oc: string, before: Store, after: Store)
    requires ks.Sound() && ks.Clean(src.labels) && sk.ns != "" && sk.name != ""
    requires Synced(ks, sk, src, targets, oc, before, after)
    ensures forall ns :: ns in targets ==>
              var k := Key(ns, sk.name);
              if k in before && Untouchable(ks, sk, before[k], oc) then At(after, k) == At(before, k)
              else k in after && IsCopyOf(ks, sk, src, after[k])
    ensures forall k :: k in after && k.ns !in targets && Doomed(ks, sk, after[k], oc) ==>
              after[k].deleting && after[k].finalizers != []
    ensures forall k: Key :: !IsTarget(sk, targets, k) && (k in before ==> !Doomed(ks, sk, before[k], oc)) ==>
              At(after, k) == At(before, k)
  {
    forall ns | ns in targets
      ensures var k := Key(ns, sk.name);
              if k in before && Untouchable(ks, sk, before[k], oc) then At(after, k) == At(before, k)
              else k in after && IsCopyOf(ks, sk, src, after[k])
    {
      var k := Key(ns, sk.name);
      PlacedMeaning(ks, sk, src, At(before, k), oc);
      assert At(after, k) == SyncedAt(ks, sk, src, targets, oc, k, At(before, k));
      if !(k in before && Untouchable(ks, sk, before[k], oc)) {
        RewrittenIsCopy(ks, sk, src, after[k], oc);
      }
    }
    forall k | k in after && k.ns !in targets && Doomed(ks, sk, after[k], oc)
      ensures after[k].deleting && after[k].finalizers != []
    {
      assert At(after, k) == SweptAt(ks, sk, targets, oc, k, At(before, k));
    }
    forall k: Key | !IsTarget(sk, targets, k) && (k in before ==> !Doomed(ks, sk, before[k], oc))
      ensures At(after, k) == At(before, k)
    {
      assert At(after, k) == SweptAt(ks, sk, targets, oc, k, At(before, k));
    }
  }

  /** Nothing depends on the order targets are visited in: the result is unique. */
  lemma SyncIsDeterministic(ks: KeySet, sk: Key, src: Obj, targets: set<string>, oc: string,
                            before: Store, after1: Store, after2: Store)
    requires Synced(ks, sk, src, targets, oc, before, after1)
    requires Synced(ks, sk, src, targets, oc, before, after2)
    ensures after1 == after2
  {
    forall k: Key ensures At(after1, k) == At(after2, k) {}
    forall k ensures k in after1 <==> k in after2 {
      assert At(after1, k) == At(after2, k);
    }
    forall k | k in after1 ensures after1[k] == after2[k] {
      assert At(after1, k) == At(after2, k);
    }
  }

  /** The side conditions keep themselves: a pass of any source, even one that fails halfway,
      leaves what is stamped for any other source under that source's name, and every object
      under one stamp. */
  lemma PassKeepsNames(ks: KeySet, sk: Key, src: Obj, targets: set<string>, oc: string, before: Store, now: Store, other: Key)
    requires ks.Sound() && ks.Clean(src.labels)
    requires PartlySynced(ks, sk, src, targets, oc, before, now)
    ensures Named(ks, before, other) ==> Named(ks, now, other)
    ensures (forall k :: k in before ==> ks.SingleStamp(before[k].labels)) ==>
              forall k :: k in now ==> ks.SingleStamp(now[k].labels)
  {
    forall k | k in now
      ensures (k in before && now[k].labels == before[k].labels)
           || (k.name == sk.name && now[k].labels == ks.CopyLabels(sk, src, oc))
    {
      assert At(now, k) == At(before, k) || At(now, k) == SyncedAt(ks, sk, src, targets, oc, k, At(before, k));
      PlacedMeaning(ks, sk, src, At(before, k), oc);
    }
    CleanGivesSingleStamp(ks, sk, src, oc);
    hide PartlySynced;
    hide KeySet.SingleStamp;
    hide KeySet.Clean;
    forall k | k in now && Stamped(ks, other, now[k]) && Named(ks, before, other) ensures k.name == other.name {
      if k in before && now[k].labels == before[k].labels {
        assert Stamped(ks, other, before[k]);
      } else {
        StampedCopyNames(ks, sk, src, oc, other, now[k]);
      }
    }
  }

  lemma StampedCopyNames(ks: KeySet, sk: Key, src: Obj, oc: string, other: Key, o: Obj)
    requires ks.Sound() && ks.Clean(src.labels) && o.labels == ks.CopyLabels(sk, src, oc)
    requires Stamped(ks, other, o)
    ensures other == sk
  {
    CleanGivesSingleStamp(ks, sk, src, oc);
    CopyLabelsLookup(ks, sk, src, oc);
    var d :| d in ks.Each() && MatchesStamp(d, o.labels, other);
    assert Managed(d, o.labels);
  }

  // ------------------------------------------------------ a second sync pass

  lemma PlacedIsSettled(ks: KeySet, sk: Key, src: Obj, had: Option<Obj>, oc: string)
    requires ks.Sound()
    ensures !Judge(ks, sk, src, Placed(ks, sk, src, had, oc), oc).Writes()
    ensures Placed(ks, sk, src, Placed(ks, sk, src, had, oc), oc) == Placed(ks, sk, src, had, oc)
  {
    PlacedMeaning(ks, sk, src, had, oc);
    if !(had.Some? && Untouchable(ks, sk, had.value, oc)) {
      var o := Placed(ks, sk, src, had, oc).value;
      CopyLabelsLookup(ks, sk, src, oc);
      PrimaryFirst(ks, o);
      assert ContentEqual(o, Mirror(ks, sk, src, o, oc));
    }
  }

  /** A second pass over key k writes exactly when k is a stale copy outside the
      targets that a finalizer keeps in place. */
  lemma SecondSyncAt(ks: KeySet, sk: Key, src: Obj, targets: set<string>, oc: string, k: Key, had: Option<Obj>)
    requires ks.Sound()
    ensures SyncWrites(ks, sk, src, targets, oc, k, SyncedAt(ks, sk, src, targets, oc, k, had))
            <==> !IsTarget(sk, targets, k) && SweptAway(ks, sk, targets, oc, k, had) && had.value.finalizers != []
  {
    if IsTarget(sk, targets, k) {
      PlacedIsSettled(ks, sk, src, had, oc);
    }
  }

  // --------------------------------------------------------- whole reconciles

  /** sk, read as src, is a source a pass would replicate once its finalizers are right. */
  predicate Drives(cfg: Config, src: Option<Obj>) {
    && src.Some? && !src.value.deleting && cfg.ks.IsSource(src.value)
    && cfg.parse(SelectorText(cfg.ks, src.value)).Some?
  }

  /** A stale copy of sk on cluster c that Delete can only mark, because a finalizer holds it. */
  ghost predicate HeldStale(cfg: Config, nss: Namespaces, spokes: Spokes, sk: Key, w: World, c: Cluster, k: Key) {
    var src := At(StoreOf(w, cfg.hub), sk);
    && Drives(cfg, src)
    && var scope := Scope(cfg, nss, spokes, sk, src.value, cfg.parse(SelectorText(cfg.ks, src.value)).value, c);
    && scope.Some?
    && SweptAway(cfg.ks, sk, scope.value.0, scope.value.1, k, At(StoreOf(w, c), k))
    && StoreOf(w, c)[k].finalizers != []
  }

  /** sk is not stamped as a copy of itself. */
  ghost predicate NotOwnCopy(cfg: Config, sk: Key, w: World) {
    sk in StoreOf(w, cfg.hub) ==> !Stamped(cfg.ks, sk, StoreOf(w, cfg.hub)[sk])
  }

  lemma BranchCases(cfg: Config, src: Option<Obj>)
    requires cfg.ks.Sound()
    ensures BranchOf(cfg, src).CleanUp? ==>
              var o := src.value;
              BranchOf(cfg, Live(o.(finalizers := cfg.ks.ReleasedFinalizers(o.finalizers)))) == Nothing
    ensures BranchOf(cfg, src).FixFinalizers? ==>
              var fixed := src.value.(finalizers := cfg.ks.MigratedFinalizers(src.value.finalizers));
              && Drives(cfg, Some(fixed)) == Drives(cfg, src)
              && SelectorText(cfg.ks, fixed) == SelectorText(cfg.ks, src.value)
              && BranchOf(cfg, Some(fixed)) == match cfg.parse(SelectorText(cfg.ks, src.value))
                                               case None => BadSelector
                                               case Some(sel) => Replicate(sel)
    ensures BranchOf(cfg, src).Replicate? ==>
              Drives(cfg, src) && BranchOf(cfg, src).sel == cfg.parse(SelectorText(cfg.ks, src.value)).value
    ensures Drives(cfg, src) ==> BranchOf(cfg, src).FixFinalizers? || BranchOf(cfg, src).Replicate?
  {
    if BranchOf(cfg, src).CleanUp? {
      var o := src.value;
      var r := o.(finalizers := cfg.ks.ReleasedFinalizers(o.finalizers));
      assert !cfg.ks.HasFinalizer(r) && cfg.ks.IsSource(r) == cfg.ks.IsSource(o);
    }
    if BranchOf(cfg, src).FixFinalizers? {
      var o := src.value;
      var fixed := o.(finalizers := cfg.ks.MigratedFinalizers(o.finalizers));
      MigratedFinalizersMeaning(cfg.ks, o.finalizers);
      assert cfg.ks.IsSource(fixed) == cfg.ks.IsSource(o);
    }
  }

  /** A replicating pass leaves its own source as it was. */
  lemma SourceStands(cfg: Config, nss: Namespaces, spokes: Spokes, sk: Key, w0: World, w1: World)
    requires NotOwnCopy(cfg, sk, w0) && Passed(cfg, nss, spokes, sk, w0, w1)
    requires BranchOf(cfg, At(StoreOf(w0, cfg.hub), sk)).Replicate?
    ensures At(StoreOf(w1, cfg.hub), sk) == At(StoreOf(w0, cfg.hub), sk)
  {
  }

  /** After one replicating pass, the next one writes exactly the held stale copies. */
  lemma ReplicateThenQuietIff(cfg: Config, nss: Namespaces, spokes: Spokes, sk: Key, w0: World, w1: World)
    requires cfg.ks.Sound() && NotOwnCopy(cfg, sk, w0) && Passed(cfg, nss, spokes, sk, w0, w1)
    requires BranchOf(cfg, At(StoreOf(w0, cfg.hub), sk)).Replicate?
    ensures Quiet(cfg, nss, spokes, sk, w1) <==> forall c, k :: !HeldStale(cfg, nss, spokes, sk, w0, c, k)
    ensures forall c, k :: HeldStale(cfg, nss, spokes, sk, w1, c, k) <==> HeldStale(cfg, nss, spokes, sk, w0, c, k)
  {
    SourceStands(cfg, nss, spokes, sk, w0, w1);
    var src := At(StoreOf(w0, cfg.hub), sk);
    BranchCases(cfg, src);
    var sel := BranchOf(cfg, src).sel;
    forall c: Cluster, k: Key
      ensures PassWrites(cfg, nss, spokes, sk, src, c, k, At(StoreOf(w1, c), k))
              <==> HeldStale(cfg, nss, spokes, sk, w0, c, k)
      ensures HeldStale(cfg, nss, spokes, sk, w1, c, k) <==> HeldStale(cfg, nss, spokes, sk, w0, c, k)
    {
      var had := At(StoreOf(w0, c), k);
      assert At(StoreOf(w1, c), k) == PassAt(cfg, nss, spokes, sk, src, c, k, had);
      var scope := Scope(cfg, nss, spokes, sk, src.value, sel, c);
      if scope.Some? {
        SecondSyncAt(cfg.ks, sk, src.value, scope.value.0, scope.value.1, k, had);
      }
    }
  }

  /** A finalizer pass moves nothing but the source's finalizers. */
  lemma FixKeepsHeldStale(cfg: Config, nss: Namespaces, spokes: Spokes, sk: Key, w0: World, w1: World, c: Cluster, k: Key)
    requires cfg.ks.Sound() && NotOwnCopy(cfg, sk, w0) && Passed(cfg, nss, spokes, sk, w0, w1)
    requires BranchOf(cfg, At(StoreOf(w0, cfg.hub), sk)).FixFinalizers?
    ensures NotOwnCopy(cfg, sk, w1)
    ensures HeldStale(cfg, nss, spokes, sk, w1, c, k) <==> HeldStale(cfg, nss, spokes, sk, w0, c, k)
  {
    var src := At(StoreOf(w0, cfg.hub), sk);
    BranchCases(cfg, src);
    assert At(StoreOf(w1, c), k) == PassAt(cfg, nss, spokes, sk, src, c, k, At(StoreOf(w0, c), k));
    assert At(StoreOf(w1, cfg.hub), sk) == PassAt(cfg, nss, spokes, sk, src, cfg.hub, sk, src);
    if Drives(cfg, src) {
      var sel := cfg.parse(SelectorText(cfg.ks, src.value)).value;
      var fixed := At(StoreOf(w1, cfg.hub), sk).value;
      assert TargetsText(cfg.ks, fixed) == TargetsText(cfg.ks, src.value);
      assert Scope(cfg, nss, spokes, sk, fixed, sel, c) == Scope(cfg, nss, spokes, sk, src.value, sel, c);
    }
  }

  lemma OnlyDriversHold(cfg: Config, nss: Namespaces, spokes: Spokes, sk: Key, w: World)
    ensures !Drives(cfg, At(StoreOf(w, cfg.hub), sk)) ==> forall c, k :: !HeldStale(cfg, nss, spokes, sk, w, c, k)
  {
  }

  /** Two passes reach a fixpoint. From any state and in any branch (deleting,
      de-annotated, legacy finalizer, stale, legacy or adoptable copies, invalid
      selector), the third pass issues no write on any cluster if and only if no
      stale copy of a live source was held by a finalizer. */
  lemma TwoPassesSettleIff(cfg: Config, nss: Namespaces, spokes: Spokes, sk: Key, w0: World, w1: World, w2: World)
    requires cfg.ks.Sound() && NotOwnCopy(cfg, sk, w0)
    requires Passed(cfg, nss, spokes, sk, w0, w1) && Passed(cfg, nss, spokes, sk, w1, w2)
    ensures Quiet(cfg, nss, spokes, sk, w2) <==> forall c, k :: !HeldStale(cfg, nss, spokes, sk, w0, c, k)
  {
    hide HeldStale;
    hide Quiet;
    hide KeySet.Sound;
    var src := At(StoreOf(w0, cfg.hub), sk);
    BranchCases(cfg, src);
    assert At(StoreOf(w1, cfg.hub), sk) == PassAt(cfg, nss, spokes, sk, src, cfg.hub, sk, src);
    BranchCases(cfg, At(StoreOf(w1, cfg.hub), sk));
    match BranchOf(cfg, src) {
      case Nothing => IdlePassIsQuiet(cfg, nss, spokes, sk, w0, w1); IdlePassIsQuiet(cfg, nss, spokes, sk, w1, w2);
      case BadSelector => IdlePassIsQuiet(cfg, nss, spokes, sk, w0, w1); IdlePassIsQuiet(cfg, nss, spokes, sk, w1, w2);
      case CleanUp => OnlyDriversHold(cfg, nss, spokes, sk, w0); IdlePassIsQuiet(cfg, nss, spokes, sk, w1, w2);
      case Replicate(_) =>
        ReplicateThenQuietIff(cfg, nss, spokes, sk, w0, w1);
        SourceStands(cfg, nss, spokes, sk, w0, w1);
        ReplicateThenQuietIff(cfg, nss, spokes, sk, w1, w2);
      case FixFinalizers =>
        forall c, k ensures HeldStale(cfg, nss, spokes, sk, w1, c, k) <==> HeldStale(cfg, nss, spokes, sk, w0, c, k) {
          FixKeepsHeldStale(cfg, nss, spokes, sk, w0, w1, c, k);
        }
        FixKeepsHeldStale(cfg, nss, spokes, sk, w0, w1, cfg.hub, sk);
        if BranchOf(cfg, At(StoreOf(w1, cfg.hub), sk)).Replicate? {
          ReplicateThenQuietIff(cfg, nss, spokes, sk, w1, w2);
        } else {
          IdlePassIsQuiet(cfg, nss, spokes, sk, w1, w2);
        }
    }
  }

  lemma IdlePassIsQuiet(cfg: Config, nss: Namespaces, spokes: Spokes, sk: Key, w0: World, w1: World)
    requires cfg.ks.Sound() && Passed(cfg, nss, spokes, sk, w0, w1)
    requires BranchOf(cfg, At(StoreOf(w0, cfg.hub), sk)) in {Nothing, BadSelector}
    ensures forall c: Cluster, k: Key :: At(StoreOf(w1, c), k) == At(StoreOf(w0, c), k)
    ensures Quiet(cfg, nss, spokes, sk, w1)
    ensures forall c, k :: !HeldStale(cfg, nss, spokes, sk, w0, c, k)
  {
    BranchCases(cfg, At(StoreOf(w0, cfg.hub), sk));
    assert At(StoreOf(w1, cfg.hub), sk) == At(StoreOf(w0, cfg.hub), sk);
  }
}
