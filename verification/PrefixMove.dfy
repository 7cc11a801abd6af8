/** Moving the key prefix changes nothing observable (docs/design/dual-annotation-domain.md):
    a controller with KeySet(new, old) simulates one with KeySet(old), on states that
    differ only in which of the two domains stamps and finalizers are written under. */
module PrefixMove {
  import opened Objects
  import opened Keys
  import opened KeySets
  import opened Copies
  import opened Reconciling

  function OldSet(was: Keys): KeySet { KeySet(was, []) }

  function NewSet(was: Keys, now: Keys): KeySet { KeySet(now, [was]) }

  /** No key of domain k occurs on the object. */
  ghost predicate FreeOf(k: Keys, o: Obj) {
    && k.managedByLabel !in o.labels && k.originNSLabel !in o.labels
    && k.originNameLabel !in o.labels && k.originClusterLabel !in o.labels
    && k.syncAnnotation !in o.annotations && k.targetClustersAnnotation !in o.annotations
    && k.finalizer !in o.finalizers
  }

  ghost predicate Moved(a: Labels, b: Labels, x: string, y: string) {
    y !in a && x !in b && (x in a <==> y in b) && (x in a ==> a[x] == b[y])
  }

  /** b is a with its stamp renamed from was to now. */
  ghost predicate Restamped(was: Keys, now: Keys, a: Labels, b: Labels) {
    && Moved(a, b, was.managedByLabel, now.managedByLabel)
    && Moved(a, b, was.originNSLabel, now.originNSLabel)
    && Moved(a, b, was.originNameLabel, now.originNameLabel)
    && Moved(a, b, was.originClusterLabel, now.originClusterLabel)
    && (forall l :: NotInStamp(l, was) && NotInStamp(l, now) ==>
          (l in a <==> l in b) && (l in a ==> a[l] == b[l]))
  }

  ghost predicate FinalizersMoved(was: Keys, now: Keys, a: seq<string>, b: seq<string>) {
    b == a || (was.finalizer in a && b == NewSet(was, now).MigratedFinalizers(a))
  }

  /** The two controllers' versions of one object. */
  ghost predicate Twins(was: Keys, now: Keys, a: Obj, b: Obj) {
    && FreeOf(now, a)
    && a.payload == b.payload && a.annotations == b.annotations && a.deleting == b.deleting
    && (a.labels == b.labels || (Managed(was, a.labels) && Restamped(was, now, a.labels, b.labels)))
    && FinalizersMoved(was, now, a.finalizers, b.finalizers)
  }

  ghost predicate TwinAt(was: Keys, now: Keys, a: Option<Obj>, b: Option<Obj>) {
    match (a, b)
    case (None, None) => true
    case (Some(x), Some(y)) => Twins(was, now, x, y)
    case _ => false
  }

  ghost predicate TwinWorlds(was: Keys, now: Keys, w: World, v: World) {
    forall c: Cluster, k: Key :: TwinAt(was, now, At(StoreOf(w, c), k), At(StoreOf(v, c), k))
  }

  // ------------------------------------------------------------- finalizers

  lemma {:induction false} RemoveSnoc(fs: seq<string>, x: string, f: string)
    ensures Remove(fs + [x], f) == Remove(fs, f) + (if x == f then [] else [x])
  {
    if fs == [] {
      assert fs + [x] == [x] && [x][1..] == [];
    } else {
      assert (fs + [x])[1..] == fs[1..] + [x];
      RemoveSnoc(fs[1..], x, f);
    }
  }

  lemma OneByOne(was: Keys, now: Keys, fs: seq<string>)
    requires NewSet(was, now).Sound()
    ensures OldSet(was).MigratedFinalizers(fs) == Add(fs, was.finalizer)
    ensures OldSet(was).ReleasedFinalizers(fs) == Remove(fs, was.finalizer)
    ensures NewSet(was, now).MigratedFinalizers(fs) == Remove(Add(fs, now.finalizer), was.finalizer)
    ensures NewSet(was, now).ReleasedFinalizers(fs) == Remove(Remove(fs, now.finalizer), was.finalizer)
    ensures was.finalizer != now.finalizer
  {
    assert was in NewSet(was, now).Each() && now in NewSet(was, now).Each();
    assert OldSet(was).Each() == [was];
    assert NewSet(was, now).Each() == [now, was];
    assert [now, was][1..] == [was] && [was][1..] == [];
    assert RemoveEach(fs, [now, was]) == RemoveEach(Remove(fs, now.finalizer), [was]);
  }

  lemma MovedFinalizersAgree(was: Keys, now: Keys, a: seq<string>, b: seq<string>)
    requires NewSet(was, now).Sound() && now.finalizer !in a
    requires FinalizersMoved(was, now, a, b)
    ensures a == [] <==> b == []
    ensures was.finalizer in a <==> now.finalizer in b || was.finalizer in b
    ensures NewSet(was, now).ReleasedFinalizers(b) == OldSet(was).ReleasedFinalizers(a)
    ensures FinalizersMoved(was, now, OldSet(was).MigratedFinalizers(a), NewSet(was, now).MigratedFinalizers(b))
    ensures was.finalizer in a ==> FinalizersMoved(was, now, a, NewSet(was, now).MigratedFinalizers(b))
  {
    OneByOne(was, now, a);
    OneByOne(was, now, b);
    hide KeySet.MigratedFinalizers;
    hide KeySet.ReleasedFinalizers;
    hide KeySet.Sound;
    RemoveSnoc(a, now.finalizer, was.finalizer);
    if b != a {
      assert b == Remove(a, was.finalizer) + [now.finalizer];
      assert Add(b, now.finalizer) == b;
      RemoveSnoc(Remove(a, was.finalizer), now.finalizer, now.finalizer);
      assert Remove(b, now.finalizer) == Remove(a, was.finalizer);
    } else {
      NotMovedYet(was, now, a);
    }
  }

  lemma NotMovedYet(was: Keys, now: Keys, a: seq<string>)
    requires NewSet(was, now).Sound() && now.finalizer !in a
    ensures FinalizersMoved(was, now, OldSet(was).MigratedFinalizers(a), NewSet(was, now).MigratedFinalizers(a))
    ensures was.finalizer in a ==> FinalizersMoved(was, now, a, NewSet(was, now).MigratedFinalizers(a))
  {
    OneByOne(was, now, a);
    OneByOne(was, now, a + [was.finalizer]);
    hide KeySet.MigratedFinalizers;
    hide KeySet.Sound;
    RemoveSnoc(a, now.finalizer, was.finalizer);
    RemoveSnoc(a + [was.finalizer], now.finalizer, was.finalizer);
    RemoveSnoc(a, was.finalizer, was.finalizer);
  }

  // ---------------------------------------------------------------- readings

  lemma BothSets(was: Keys, now: Keys)
    ensures OldSet(was).Each() == [was] && NewSet(was, now).Each() == [now, was]
    ensures [now, was][1..] == [was] && [was][1..] == []
    ensures NewSet(was, now).Sound() ==>
              OldSet(was).Sound() && Apart(was, now) && Apart(now, was) && SelfApart(was) && SelfApart(now)
  {
    assert NewSet(was, now).Each() == [now, was];
    assert was in NewSet(was, now).Each() && now in NewSet(was, now).Each();
    assert OldSet(was).Each() == [was];
  }

  lemma TwinLookups(was: Keys, now: Keys, a: Obj, b: Obj)
    requires NewSet(was, now).Sound() && Twins(was, now, a, b)
    ensures a.labels == b.labels ==> !Managed(now, b.labels)
    ensures a.labels != b.labels ==>
              && !Managed(was, b.labels)
              && Lookup(a.labels, was.managedByLabel) == Lookup(b.labels, now.managedByLabel)
              && Lookup(a.labels, was.originNSLabel) == Lookup(b.labels, now.originNSLabel)
              && Lookup(a.labels, was.originNameLabel) == Lookup(b.labels, now.originNameLabel)
              && Lookup(a.labels, was.originClusterLabel) == Lookup(b.labels, now.originClusterLabel)
    ensures forall sk :: MatchesStamp(was, a.labels, sk)
                         <==> MatchesStamp(now, b.labels, sk) || MatchesStamp(was, b.labels, sk)
  {
    BothSets(was, now);
  }

  /** The two controllers read the same things off the two versions of an object. */
  lemma TwinReadings(was: Keys, now: Keys, a: Obj, b: Obj, sk: Key, oc: string)
    requires NewSet(was, now).Sound() && Twins(was, now, a, b)
    ensures OldSet(was).IsManagedCopy(a) <==> NewSet(was, now).IsManagedCopy(b)
    ensures OldSet(was).OwnsCopy(a, sk, oc) <==> NewSet(was, now).OwnsCopy(b, sk, oc)
    ensures OldSet(was).OriginCluster(a) == NewSet(was, now).OriginCluster(b)
    ensures OldSet(was).CopyOrigin(a) == NewSet(was, now).CopyOrigin(b)
    ensures Stamped(OldSet(was), sk, a) <==> Stamped(NewSet(was, now), sk, b)
    ensures Doomed(OldSet(was), sk, a, oc) <==> Doomed(NewSet(was, now), sk, b, oc)
  {
    BothSets(was, now);
    TwinLookups(was, now, a, b);
    assert Stamped(OldSet(was), sk, a) <==> MatchesStamp(was, a.labels, sk);
    assert Stamped(NewSet(was, now), sk, b) <==> MatchesStamp(now, b.labels, sk) || MatchesStamp(was, b.labels, sk);
  }

  lemma TwinHasFinalizer(was: Keys, now: Keys, a: Obj, b: Obj)
    requires NewSet(was, now).Sound() && Twins(was, now, a, b)
    ensures OldSet(was).HasFinalizer(a) <==> NewSet(was, now).HasFinalizer(b)
  {
    BothSets(was, now);
    MovedFinalizersAgree(was, now, a.finalizers, b.finalizers);
    hide FinalizersMoved;
    hide Restamped;
  }

  lemma TwinAnnotations(was: Keys, now: Keys, a: Obj, b: Obj)
    requires NewSet(was, now).Sound() && Twins(was, now, a, b)
    ensures OldSet(was).IsSource(a) <==> NewSet(was, now).IsSource(b)
    ensures SelectorText(OldSet(was), a) == SelectorText(NewSet(was, now), b)
    ensures OldSet(was).TargetClustersValue(a.annotations) == NewSet(was, now).TargetClustersValue(b.annotations)
    ensures OldSet(was).CopyAnnotations(a) == NewSet(was, now).CopyAnnotations(b)
    ensures OldSet(was).HasFinalizer(a) <==> NewSet(was, now).HasFinalizer(b)
  {
    TwinHasFinalizer(was, now, a, b);
    BothSets(was, now);
    hide KeySet.HasFinalizer;
    hide FinalizersMoved;
    hide Restamped;
    forall l | l in a.annotations
      ensures OldSet(was).IsSyncKey(l) <==> NewSet(was, now).IsSyncKey(l)
    {
      assert OldSet(was).IsSyncKey(l) <==> l == was.syncAnnotation;
      assert NewSet(was, now).IsSyncKey(l) <==> l == was.syncAnnotation || l == now.syncAnnotation;
    }
  }

  // --------------------------------------------------------------- decisions

  /** What a verdict does, leaving out under which domain the copy was stamped. */
  datatype Effect = Creates | Refuses | Conflicts | Adopts | KeepsOwn

  function EffectOf(v: Verdict): Effect {
    match v
    case Create => Creates
    case Refuse => Refuses
    case Conflict => Conflicts
    case Adopt => Adopts
    case Keep => KeepsOwn
    case Migrate(_) => KeepsOwn
    case Refresh => KeepsOwn
  }

  /** A source as both controllers see it: the same object but for its finalizers,
      and with no stamp of its own. */
  ghost predicate TwinSources(was: Keys, now: Keys, a: Obj, b: Obj) {
    Twins(was, now, a, b) && a.labels == b.labels && NewSet(was, now).Clean(a.labels)
  }

  /** The effect of upsertCopy, read off the existing object alone. */
  function EffectFor(ks: KeySet, sk: Key, had: Option<Obj>, oc: string): Effect {
    match had
    case None => Creates
    case Some(e) =>
      if ks.IsManagedCopy(e) then (if ks.OwnsCopy(e, sk, oc) then KeepsOwn else Conflicts)
      else (if IsAdoptable(e) then Adopts else Refuses)
  }

  lemma EffectOfJudge(ks: KeySet, sk: Key, src: Obj, had: Option<Obj>, oc: string)
    ensures EffectOf(Judge(ks, sk, src, had, oc)) == EffectFor(ks, sk, had, oc)
  {
  }

  lemma SameEffect(was: Keys, now: Keys, sk: Key, a: Option<Obj>, b: Option<Obj>, oc: string)
    requires NewSet(was, now).Sound() && TwinAt(was, now, a, b)
    ensures EffectFor(OldSet(was), sk, a, oc) == EffectFor(NewSet(was, now), sk, b, oc)
    ensures a.Some? ==> (Untouchable(OldSet(was), sk, a.value, oc)
                         <==> Untouchable(NewSet(was, now), sk, b.value, oc))
  {
    if a.Some? {
      TwinReadings(was, now, a.value, b.value, sk, oc);
      if !OldSet(was).IsManagedCopy(a.value) {
        assert was in OldSet(was).Each();
        assert a.value.labels == b.value.labels;
      }
    }
  }

  /** The two controllers refuse, conflict, adopt and create in exactly the same cases. */
  lemma SameDecision(was: Keys, now: Keys, sk: Key, src1: Obj, src2: Obj, a: Option<Obj>, b: Option<Obj>, oc: string)
    requires NewSet(was, now).Sound() && TwinAt(was, now, a, b)
    ensures EffectOf(Judge(OldSet(was), sk, src1, a, oc)) == EffectOf(Judge(NewSet(was, now), sk, src2, b, oc))
  {
    SameEffect(was, now, sk, a, b, oc);
    EffectOfJudge(OldSet(was), sk, src1, a, oc);
    EffectOfJudge(NewSet(was, now), sk, src2, b, oc);
  }

  /** A stamp written under either domain on labels free of both: one renames the other. */
  function Stamp(k: Keys, sk: Key, labels: Labels, oc: string): Labels {
    var stamped := labels[k.managedByLabel := ManagedByValue][k.originNSLabel := sk.ns][k.originNameLabel := sk.name];
    if oc != "" then stamped[k.originClusterLabel := oc] else stamped
  }

  lemma StampsAreRestamped(was: Keys, now: Keys, sk: Key, labels: Labels, oc: string)
    requires SelfApart(was) && SelfApart(now) && Apart(was, now) && Apart(now, was)
    requires forall l :: l in labels ==> NotInStamp(l, was) && NotInStamp(l, now)
    ensures Managed(was, Stamp(was, sk, labels, oc))
    ensures Restamped(was, now, Stamp(was, sk, labels, oc), Stamp(now, sk, labels, oc))
  {
  }

  lemma TwinCopies(was: Keys, now: Keys, sk: Key, src1: Obj, src2: Obj, x: Obj, y: Obj, oc: string)
    requires NewSet(was, now).Sound() && TwinSources(was, now, src1, src2)
    requires x.labels == OldSet(was).CopyLabels(sk, src1, oc) && y.labels == NewSet(was, now).CopyLabels(sk, src2, oc)
    requires x.annotations == OldSet(was).CopyAnnotations(src1) && y.annotations == NewSet(was, now).CopyAnnotations(src2)
    requires x.payload == src1.payload && y.payload == src2.payload && x.deleting == y.deleting
    requires now.finalizer !in x.finalizers && FinalizersMoved(was, now, x.finalizers, y.finalizers)
    ensures Twins(was, now, x, y)
  {
    BothSets(was, now);
    TwinAnnotations(was, now, src1, src2);
    assert was in NewSet(was, now).Each() && now in NewSet(was, now).Each();
    StampsAreRestamped(was, now, sk, src1.labels, oc);
    assert x.labels == Stamp(was, sk, src1.labels, oc) && y.labels == Stamp(now, sk, src1.labels, oc);
    assert now.syncAnnotation !in x.annotations && now.targetClustersAnnotation !in x.annotations;
  }

  lemma TwinPlaced(was: Keys, now: Keys, sk: Key, src1: Obj, src2: Obj, a: Option<Obj>, b: Option<Obj>, oc: string)
    requires NewSet(was, now).Sound() && TwinSources(was, now, src1, src2) && TwinAt(was, now, a, b)
    ensures TwinAt(was, now, Placed(OldSet(was), sk, src1, a, oc), Placed(NewSet(was, now), sk, src2, b, oc))
  {
    BothSets(was, now);
    SameEffect(was, now, sk, a, b, oc);
    PlacedMeaning(OldSet(was), sk, src1, a, oc);
    PlacedMeaning(NewSet(was, now), sk, src2, b, oc);
    if !(a.Some? && Untouchable(OldSet(was), sk, a.value, oc)) {
      TwinCopies(was, now, sk, src1, src2, Placed(OldSet(was), sk, src1, a, oc).value,
                 Placed(NewSet(was, now), sk, src2, b, oc).value, oc);
    }
  }

  lemma TwinSwept(was: Keys, now: Keys, sk: Key, keep: set<string>, oc: string, k: Key, a: Option<Obj>, b: Option<Obj>)
    requires NewSet(was, now).Sound() && TwinAt(was, now, a, b)
    ensures SweptAway(OldSet(was), sk, keep, oc, k, a) <==> SweptAway(NewSet(was, now), sk, keep, oc, k, b)
    ensures TwinAt(was, now, SweptAt(OldSet(was), sk, keep, oc, k, a), SweptAt(NewSet(was, now), sk, keep, oc, k, b))
  {
    if a.Some? {
      TwinReadings(was, now, a.value, b.value, sk, oc);
      MovedFinalizersAgree(was, now, a.value.finalizers, b.value.finalizers);
    }
  }

  // ---------------------------------------------------------- whole passes

  function OldConfig(cfg: Config, was: Keys): Config { cfg.(ks := OldSet(was)) }

  function NewConfig(cfg: Config, was: Keys, now: Keys): Config { cfg.(ks := NewSet(was, now)) }

  lemma NowNotIn(now: Keys, a: Obj)
    requires FreeOf(now, a)
    ensures now.finalizer !in a.finalizers
  {
  }

  /** Where the old controller would write finalizers, so would the new one. */
  lemma FinalizersNeedTheSame(was: Keys, now: Keys, a: seq<string>, b: seq<string>)
    requires NewSet(was, now).Sound() && now.finalizer !in a && FinalizersMoved(was, now, a, b)
    ensures OldSet(was).MigratedFinalizers(a) != a ==> NewSet(was, now).MigratedFinalizers(b) != b
  {
    MovedFinalizersAgree(was, now, a, b);
    OneByOne(was, now, a);
    OneByOne(was, now, b);
  }

  /** The two controllers take the same branch, but for one finalizer pass that the
      new one may need first. */
  lemma SameBranch(cfg: Config, was: Keys, now: Keys, a: Option<Obj>, b: Option<Obj>)
    requires NewSet(was, now).Sound() && TwinAt(was, now, a, b)
    ensures BranchOf(NewConfig(cfg, was, now), b) == BranchOf(OldConfig(cfg, was), a)
            || BranchOf(NewConfig(cfg, was, now), b).FixFinalizers?
    ensures BranchOf(OldConfig(cfg, was), a).FixFinalizers? ==> BranchOf(NewConfig(cfg, was, now), b).FixFinalizers?
  {
    hide SelectorText;
    hide KeySet.IsSource;
    hide KeySet.HasFinalizer;
    hide KeySet.Sound;
    hide FreeOf;
    hide Restamped;
    if a.Some? {
      TwinAnnotations(was, now, a.value, b.value);
      FinalizersNeedTheSame(was, now, a.value.finalizers, b.value.finalizers) by {
        assert FreeOf(now, a.value);
        NowNotIn(now, a.value);
      }
    }
  }

  /** The source a pass works on carries no stamp of its own. */
  ghost predicate CleanSource(cfg: Config, was: Keys, now: Keys, sk: Key, w: World) {
    var a := At(StoreOf(w, cfg.hub), sk);
    a.Some? ==> NewSet(was, now).Clean(a.value.labels)
  }

  lemma CleanTwins(was: Keys, now: Keys, a: Obj, b: Obj)
    requires Twins(was, now, a, b) && NewSet(was, now).Clean(a.labels)
    ensures TwinSources(was, now, a, b)
  {
    assert was in NewSet(was, now).Each();
  }

  lemma TwinStutter(cfg: Config, was: Keys, now: Keys, a: Obj, b: Obj)
    requires NewSet(was, now).Sound() && Twins(was, now, a, b)
    requires BranchOf(NewConfig(cfg, was, now), Some(b)).FixFinalizers?
    requires !BranchOf(OldConfig(cfg, was), Some(a)).FixFinalizers?
    ensures Twins(was, now, a, b.(finalizers := NewSet(was, now).MigratedFinalizers(b.finalizers)))
  {
    TwinAnnotations(was, now, a, b);
    OneByOne(was, now, a.finalizers);
    assert was.finalizer in a.finalizers;
    MovedFinalizersAgree(was, now, a.finalizers, b.finalizers);
  }

  /** The new controller's extra finalizer pass is invisible. */
  lemma ExtraFinalizerPass(cfg: Config, was: Keys, now: Keys, nss: Namespaces, spokes: Spokes, sk: Key,
                           w: World, v0: World, v1: World)
    requires NewSet(was, now).Sound() && TwinWorlds(was, now, w, v0)
    requires Passed(NewConfig(cfg, was, now), nss, spokes, sk, v0, v1)
    requires BranchOf(NewConfig(cfg, was, now), At(StoreOf(v0, cfg.hub), sk)).FixFinalizers?
    requires !BranchOf(OldConfig(cfg, was), At(StoreOf(w, cfg.hub), sk)).FixFinalizers?
    ensures TwinWorlds(was, now, w, v1)
  {
    var a, b := At(StoreOf(w, cfg.hub), sk), At(StoreOf(v0, cfg.hub), sk);
    assert TwinAt(was, now, a, b);
    TwinStutter(cfg, was, now, a.value, b.value);
    var fixed := b.value.(finalizers := NewSet(was, now).MigratedFinalizers(b.value.finalizers));
    forall c: Cluster, k: Key ensures TwinAt(was, now, At(StoreOf(w, c), k), At(StoreOf(v1, c), k)) {
      assert TwinAt(was, now, At(StoreOf(w, c), k), At(StoreOf(v0, c), k));
      assert At(StoreOf(v1, c), k) == if c == cfg.hub && k == sk then Some(fixed) else At(StoreOf(v0, c), k) by {
        assert At(StoreOf(v1, c), k)
            == PassAt(NewConfig(cfg, was, now), nss, spokes, sk, b, c, k, At(StoreOf(v0, c), k));
      }
    }
  }

  lemma TwinSynced(was: Keys, now: Keys, sk: Key, a: Obj, b: Obj, targets: set<string>, oc: string,
                   k: Key, x: Option<Obj>, y: Option<Obj>)
    requires NewSet(was, now).Sound() && TwinSources(was, now, a, b) && TwinAt(was, now, x, y)
    ensures TwinAt(was, now, SyncedAt(OldSet(was), sk, a, targets, oc, k, x),
                             SyncedAt(NewSet(was, now), sk, b, targets, oc, k, y))
  {
    TwinPlaced(was, now, sk, a, b, x, y, oc);
    TwinSwept(was, now, sk, targets, oc, k, x, y);
  }

  lemma TwinScope(cfg: Config, was: Keys, now: Keys, nss: Namespaces, spokes: Spokes, sk: Key, sel: Selector,
                  a: Obj, b: Obj, c: Cluster)
    requires NewSet(was, now).Sound() && Twins(was, now, a, b)
    ensures Scope(OldConfig(cfg, was), nss, spokes, sk, a, sel, c)
         == Scope(NewConfig(cfg, was, now), nss, spokes, sk, b, sel, c)
  {
    TwinAnnotations(was, now, a, b);
    assert TargetsText(OldSet(was), a) == TargetsText(NewSet(was, now), b);
    assert Targets(OldConfig(cfg, was), nss, sk, sel) == Targets(NewConfig(cfg, was, now), nss, sk, sel);
  }

  lemma TwinReplicate(cfg: Config, was: Keys, now: Keys, nss: Namespaces, spokes: Spokes, sk: Key, branch: Branch,
                     a: Obj, b: Obj, c: Cluster, k: Key, x: Option<Obj>, y: Option<Obj>)
    requires NewSet(was, now).Sound() && TwinAt(was, now, x, y) && TwinSources(was, now, a, b)
    requires branch.Replicate?
    ensures TwinAt(was, now, BranchAt(OldConfig(cfg, was), nss, spokes, sk, branch, a, c, k, x),
                             BranchAt(NewConfig(cfg, was, now), nss, spokes, sk, branch, b, c, k, y))
  {
    TwinScope(cfg, was, now, nss, spokes, sk, branch.sel, a, b, c);
    var scope := Scope(OldConfig(cfg, was), nss, spokes, sk, a, branch.sel, c);
    ReplicateScope(OldConfig(cfg, was), nss, spokes, sk, branch.sel, a, c);
    ReplicateScope(NewConfig(cfg, was, now), nss, spokes, sk, branch.sel, b, c);
    hide BranchAt;
    hide BranchWrites;
    hide SyncedAt;
    hide SyncWrites;
    hide Scope;
    hide Twins;
    hide KeySet.Sound;
    hide KeySet.Clean;
    if scope.Some? {
      TwinSynced(was, now, sk, a, b, scope.value.0, scope.value.1, k, x, y);
    }
  }

  lemma TwinRelease(cfg: Config, was: Keys, now: Keys, a: Obj, b: Obj)
    requires NewSet(was, now).Sound() && Twins(was, now, a, b)
    ensures TwinAt(was, now, Live(a.(finalizers := OldSet(was).ReleasedFinalizers(a.finalizers))),
                             Live(b.(finalizers := NewSet(was, now).ReleasedFinalizers(b.finalizers))))
    ensures Twins(was, now, a.(finalizers := OldSet(was).MigratedFinalizers(a.finalizers)),
                            b.(finalizers := NewSet(was, now).MigratedFinalizers(b.finalizers)))
  {
    MovedFinalizersAgree(was, now, a.finalizers, b.finalizers);
    OneByOne(was, now, a.finalizers);
  }

  lemma TwinCleanUp(cfg: Config, was: Keys, now: Keys, nss: Namespaces, spokes: Spokes, sk: Key, branch: Branch,
                     a: Obj, b: Obj, c: Cluster, k: Key, x: Option<Obj>, y: Option<Obj>)
    requires NewSet(was, now).Sound() && TwinAt(was, now, x, y) && TwinSources(was, now, a, b)
    requires branch.CleanUp?
    ensures TwinAt(was, now, BranchAt(OldConfig(cfg, was), nss, spokes, sk, branch, a, c, k, x),
                             BranchAt(NewConfig(cfg, was, now), nss, spokes, sk, branch, b, c, k, y))
  {
    if c == cfg.hub && k == sk {
      TwinRelease(cfg, was, now, a, b);
    } else {
      TwinSwept(was, now, sk, {}, if c == cfg.hub then "" else cfg.hubUid, k, x, y);
    }
  }

  lemma TwinFix(cfg: Config, was: Keys, now: Keys, nss: Namespaces, spokes: Spokes, sk: Key, branch: Branch,
                     a: Obj, b: Obj, c: Cluster, k: Key, x: Option<Obj>, y: Option<Obj>)
    requires NewSet(was, now).Sound() && TwinAt(was, now, x, y) && TwinSources(was, now, a, b)
    requires branch.FixFinalizers?
    ensures TwinAt(was, now, BranchAt(OldConfig(cfg, was), nss, spokes, sk, branch, a, c, k, x),
                             BranchAt(NewConfig(cfg, was, now), nss, spokes, sk, branch, b, c, k, y))
  {
    TwinRelease(cfg, was, now, a, b);
    FixBranch(OldConfig(cfg, was), nss, spokes, sk, a, c);
    FixBranch(NewConfig(cfg, was, now), nss, spokes, sk, b, c);
    hide BranchAt;
    hide KeySet.MigratedFinalizers;
    hide KeySet.ReleasedFinalizers;
    hide Twins;
  }

  lemma TwinBranchAt(cfg: Config, was: Keys, now: Keys, nss: Namespaces, spokes: Spokes, sk: Key, branch: Branch,
                     a: Obj, b: Obj, c: Cluster, k: Key, x: Option<Obj>, y: Option<Obj>)
    requires NewSet(was, now).Sound() && TwinAt(was, now, x, y) && TwinSources(was, now, a, b)
    ensures TwinAt(was, now, BranchAt(OldConfig(cfg, was), nss, spokes, sk, branch, a, c, k, x),
                             BranchAt(NewConfig(cfg, was, now), nss, spokes, sk, branch, b, c, k, y))
  {
    match branch {
      case Replicate(_) => TwinReplicate(cfg, was, now, nss, spokes, sk, branch, a, b, c, k, x, y);
      case CleanUp => TwinCleanUp(cfg, was, now, nss, spokes, sk, branch, a, b, c, k, x, y);
      case FixFinalizers => TwinFix(cfg, was, now, nss, spokes, sk, branch, a, b, c, k, x, y);
      case _ =>
    }
  }

  /** The prefix move is non-breaking. From states that agree up to the rename, a pass
      of each controller leads to states that agree up to the rename, on every cluster. */
  lemma PassesKeepTwins(cfg: Config, was: Keys, now: Keys, nss: Namespaces, spokes: Spokes, sk: Key,
                        w0: World, w1: World, v0: World, v1: World)
    requires NewSet(was, now).Sound() && TwinWorlds(was, now, w0, v0) && CleanSource(cfg, was, now, sk, w0)
    requires Passed(OldConfig(cfg, was), nss, spokes, sk, w0, w1)
    requires Passed(NewConfig(cfg, was, now), nss, spokes, sk, v0, v1)
    requires BranchOf(OldConfig(cfg, was), At(StoreOf(w0, cfg.hub), sk)).FixFinalizers?
             <==> BranchOf(NewConfig(cfg, was, now), At(StoreOf(v0, cfg.hub), sk)).FixFinalizers?
    ensures TwinWorlds(was, now, w1, v1)
  {
    var a, b := At(StoreOf(w0, cfg.hub), sk), At(StoreOf(v0, cfg.hub), sk);
    assert TwinAt(was, now, a, b);
    SameBranch(cfg, was, now, a, b);
    forall c: Cluster, k: Key ensures TwinAt(was, now, At(StoreOf(w1, c), k), At(StoreOf(v1, c), k)) {
      assert TwinAt(was, now, At(StoreOf(w0, c), k), At(StoreOf(v0, c), k));
      if a.Some? {
        CleanTwins(was, now, a.value, b.value);
        TwinBranchAt(cfg, was, now, nss, spokes, sk, BranchOf(OldConfig(cfg, was), a), a.value, b.value,
                     c, k, At(StoreOf(w0, c), k), At(StoreOf(v0, c), k));
      }
      assert At(StoreOf(w1, c), k)
          == PassAt(OldConfig(cfg, was), nss, spokes, sk, a, c, k, At(StoreOf(w0, c), k));
      assert At(StoreOf(v1, c), k)
          == PassAt(NewConfig(cfg, was, now), nss, spokes, sk, b, c, k, At(StoreOf(v0, c), k));
    }
  }

  /** After its finalizer pass the new controller has no other one to make. */
  lemma FixedStaysFixed(cfg: Config, was: Keys, now: Keys, nss: Namespaces, spokes: Spokes, sk: Key, v0: World, v1: World)
    requires NewSet(was, now).Sound()
    requires Passed(NewConfig(cfg, was, now), nss, spokes, sk, v0, v1)
    requires BranchOf(NewConfig(cfg, was, now), At(StoreOf(v0, cfg.hub), sk)).FixFinalizers?
    ensures !BranchOf(NewConfig(cfg, was, now), At(StoreOf(v1, cfg.hub), sk)).FixFinalizers?
    ensures At(StoreOf(v1, cfg.hub), sk).Some?
         && At(StoreOf(v1, cfg.hub), sk).value.labels == At(StoreOf(v0, cfg.hub), sk).value.labels
  {
    var b := At(StoreOf(v0, cfg.hub), sk);
    assert At(StoreOf(v1, cfg.hub), sk) == PassAt(NewConfig(cfg, was, now), nss, spokes, sk, b, cfg.hub, sk, b);
    FixBranch(NewConfig(cfg, was, now), nss, spokes, sk, b.value, cfg.hub);
    MigratedFinalizersMeaning(NewSet(was, now), b.value.finalizers);
  }

  /** The move simulates: whatever pass the old controller makes, the new one, from the twin
      world, arrives at the twin of its outcome in one pass, or in two when the first only
      renames the source's finalizer. */
  lemma MoveSimulates(cfg: Config, was: Keys, now: Keys, nss: Namespaces, spokes: Spokes, sk: Key,
                      w0: World, w1: World, v0: World, v1: World, v2: World)
    requires NewSet(was, now).Sound() && TwinWorlds(was, now, w0, v0) && CleanSource(cfg, was, now, sk, w0)
    requires Passed(OldConfig(cfg, was), nss, spokes, sk, w0, w1)
    requires Passed(NewConfig(cfg, was, now), nss, spokes, sk, v0, v1)
    requires Passed(NewConfig(cfg, was, now), nss, spokes, sk, v1, v2)
    ensures TwinWorlds(was, now, w1,
              if BranchOf(NewConfig(cfg, was, now), At(StoreOf(v0, cfg.hub), sk)).FixFinalizers?
                 && !BranchOf(OldConfig(cfg, was), At(StoreOf(w0, cfg.hub), sk)).FixFinalizers?
              then v2 else v1)
  {
    hide Passed;
    hide BranchOf;
    hide Twins;
    hide KeySet.Sound;
    assert TwinAt(was, now, At(StoreOf(w0, cfg.hub), sk), At(StoreOf(v0, cfg.hub), sk));
    SameBranch(cfg, was, now, At(StoreOf(w0, cfg.hub), sk), At(StoreOf(v0, cfg.hub), sk));
    if BranchOf(NewConfig(cfg, was, now), At(StoreOf(v0, cfg.hub), sk)).FixFinalizers?
       && !BranchOf(OldConfig(cfg, was), At(StoreOf(w0, cfg.hub), sk)).FixFinalizers? {
      ExtraFinalizerPass(cfg, was, now, nss, spokes, sk, w0, v0, v1);
      FixedStaysFixed(cfg, was, now, nss, spokes, sk, v0, v1);
      PassesKeepTwins(cfg, was, now, nss, spokes, sk, w0, w1, v1, v2);
    } else {
      PassesKeepTwins(cfg, was, now, nss, spokes, sk, w0, w1, v0, v1);
    }
  }

  // ------------------------------------------------------------- many passes

  /** One pass: its source, and the namespaces and spokes it sees. */
  datatype Pass = Pass(sk: Key, nss: Namespaces, spokes: Spokes)

  /** The new controller's answer to a pass of the old one made from w: one pass, or a
      finalizer pass first where the old controller needs none. */
  ghost predicate Answers(cfg: Config, was: Keys, now: Keys, p: Pass, w: World, v: World, v2: World) {
    var a, b := At(StoreOf(w, cfg.hub), p.sk), At(StoreOf(v, cfg.hub), p.sk);
    if BranchOf(NewConfig(cfg, was, now), b).FixFinalizers? && !BranchOf(OldConfig(cfg, was), a).FixFinalizers? then
      exists v1 :: Passed(NewConfig(cfg, was, now), p.nss, p.spokes, p.sk, v, v1)
                && Passed(NewConfig(cfg, was, now), p.nss, p.spokes, p.sk, v1, v2)
    else Passed(NewConfig(cfg, was, now), p.nss, p.spokes, p.sk, v, v2)
  }

  lemma AnswerKeepsTwins(cfg: Config, was: Keys, now: Keys, p: Pass, w0: World, w1: World, v0: World, v2: World)
    requires NewSet(was, now).Sound() && TwinWorlds(was, now, w0, v0) && CleanSource(cfg, was, now, p.sk, w0)
    requires Passed(OldConfig(cfg, was), p.nss, p.spokes, p.sk, w0, w1) && Answers(cfg, was, now, p, w0, v0, v2)
    ensures TwinWorlds(was, now, w1, v2)
  {
    hide Passed;
    hide BranchOf;
    hide TwinAt;
    hide KeySet.Sound;
    if BranchOf(NewConfig(cfg, was, now), At(StoreOf(v0, cfg.hub), p.sk)).FixFinalizers?
       && !BranchOf(OldConfig(cfg, was), At(StoreOf(w0, cfg.hub), p.sk)).FixFinalizers? {
      var v1 :| Passed(NewConfig(cfg, was, now), p.nss, p.spokes, p.sk, v0, v1)
             && Passed(NewConfig(cfg, was, now), p.nss, p.spokes, p.sk, v1, v2);
      MoveSimulates(cfg, was, now, p.nss, p.spokes, p.sk, w0, w1, v0, v1, v2);
    } else {
      hide TwinWorlds;
      SameFix(cfg, was, now, p.sk, w0, v0);
      PassesKeepTwins(cfg, was, now, p.nss, p.spokes, p.sk, w0, w1, v0, v2);
    }
  }

  lemma SameFix(cfg: Config, was: Keys, now: Keys, sk: Key, w: World, v: World)
    requires NewSet(was, now).Sound() && TwinWorlds(was, now, w, v)
    ensures BranchOf(OldConfig(cfg, was), At(StoreOf(w, cfg.hub), sk)).FixFinalizers? ==>
            BranchOf(NewConfig(cfg, was, now), At(StoreOf(v, cfg.hub), sk)).FixFinalizers?
  {
    assert TwinAt(was, now, At(StoreOf(w, cfg.hub), sk), At(StoreOf(v, cfg.hub), sk));
    hide BranchOf;
    SameBranch(cfg, was, now, At(StoreOf(w, cfg.hub), sk), At(StoreOf(v, cfg.hub), sk));
  }

  /** The old controller's passes over ws, and the new one's answers over vs. */
  ghost predicate InStep(cfg: Config, was: Keys, now: Keys, ps: seq<Pass>, ws: seq<World>, vs: seq<World>) {
    && |ws| == |ps| + 1 && |vs| == |ps| + 1
    && forall i {:trigger ps[i]} :: 0 <= i < |ps| ==>
         && CleanSource(cfg, was, now, ps[i].sk, ws[i])
         && Passed(OldConfig(cfg, was), ps[i].nss, ps[i].spokes, ps[i].sk, ws[i], ws[i + 1])
         && Answers(cfg, was, now, ps[i], ws[i], vs[i], vs[i + 1])
  }

  lemma StepInStep(cfg: Config, was: Keys, now: Keys, ps: seq<Pass>, ws: seq<World>, vs: seq<World>, i: nat)
    requires NewSet(was, now).Sound() && InStep(cfg, was, now, ps, ws, vs) && i < |ps|
    requires TwinWorlds(was, now, ws[i], vs[i])
    ensures TwinWorlds(was, now, ws[i + 1], vs[i + 1])
  {
    hide CleanSource;
    hide Answers;
    hide Passed;
    hide TwinWorlds;
    hide KeySet.Sound;
    AnswerKeepsTwins(cfg, was, now, ps[i], ws[i], ws[i + 1], vs[i], vs[i + 1]);
  }

  /** Over any sequence of passes of any sources the two worlds stay twins. */
  lemma {:induction false} RunsKeepTwins(cfg: Config, was: Keys, now: Keys, ps: seq<Pass>,
                                         ws: seq<World>, vs: seq<World>, i: nat)
    requires NewSet(was, now).Sound() && InStep(cfg, was, now, ps, ws, vs) && i <= |ps|
    requires TwinWorlds(was, now, ws[0], vs[0])
    ensures TwinWorlds(was, now, ws[i], vs[i])
  {
    hide TwinWorlds;
    hide KeySet.Sound;
    if i > 0 {
      RunsKeepTwins(cfg, was, now, ps, ws, vs, i - 1);
      StepInStep(cfg, was, now, ps, ws, vs, i - 1);
    }
  }

  /** Twin worlds hold the same payload at the same places. */
  lemma TwinsLookAlike(was: Keys, now: Keys, w: World, v: World, c: Cluster, k: Key)
    requires TwinWorlds(was, now, w, v)
    ensures k in StoreOf(w, c) <==> k in StoreOf(v, c)
    ensures k in StoreOf(w, c) ==> StoreOf(w, c)[k].payload == StoreOf(v, c)[k].payload
  {
    assert TwinAt(was, now, At(StoreOf(w, c), k), At(StoreOf(v, c), k));
  }

  /** A state with no trace of the new domain is its own twin: the day of the upgrade. */
  lemma UpgradeDay(was: Keys, now: Keys, w: World)
    requires forall c, k :: k in StoreOf(w, c) ==> FreeOf(now, StoreOf(w, c)[k])
    ensures TwinWorlds(was, now, w, w)
  {
  }
}
