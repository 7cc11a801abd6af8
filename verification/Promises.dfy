/** What the engine promises, said of the stored objects alone: a whole pass, and a run come to
    rest (internal/controller/syncer.go, internal/controller/cross_cluster.go). */
module Promises {
  import opened Objects
  import opened KeySets
  import opened Copies
  import opened Reconciling
  import opened Readings
  import opened Controller
  import opened Safety
  import opened Convergence
  import TargetClusters

  // --------------------------------------------------------- one key of a pass

  /** ns is listed, is neither the source's own nor terminating nor excluded, and its labels
      match the selector. */
  ghost predicate WantedHere(cfg: Config, nss: Namespaces, sk: Key, sel: Selector, ns: string) {
    && ns in nss && ns != sk.ns && !nss[ns].terminating && ns !in cfg.excluded
    && sel(nss[ns].labels)
  }

  /** The annotation asks for ns on cluster c, by one of the ids that lead there; a bare id asks
      for the source's own namespace. */
  ghost predicate WantedOn(registered: map<string, Cluster>, home: string, csv: string, c: Cluster, ns: string) {
    exists id, n :: id in registered && registered[id] == c && id in TargetClusters.Parsed(csv)
                    && n in TargetClusters.Parsed(csv)[id] && ns == if n == "" then home else n
  }

  /** A key as a prune leaves it. */
  ghost predicate PrunedTo(ks: KeySet, sk: Key, uid: string, had: Option<Obj>, now: Option<Obj>) {
    now == if had.None? || !Prunable(ks, sk, uid, had.value) then had
           else if had.value.finalizers == [] then None
           else Some(had.value.(deleting := true))
  }

  /** A key after a pass of source sk: wanted says whether its namespace is. */
  ghost predicate KeyAfter(ks: KeySet, sk: Key, uid: string, src: Obj, wanted: bool, k: Key,
                           had: Option<Obj>, now: Option<Obj>) {
    if !wanted then PrunedTo(ks, sk, uid, had, now)
    else if k.name != sk.name || (had.Some? && LeaveAlone(ks, sk, uid, had.value)) then now == had
    else now.Some? && WrittenOver(ks, sk, uid, src, had, now.value)
  }

  lemma SyncedReadOff(ks: KeySet, sk: Key, src: Obj, targets: set<string>, uid: string, k: Key, had: Option<Obj>)
    requires ks.Sound()
    ensures KeyAfter(ks, sk, uid, src, k.ns in targets, k, had, SyncedAt(ks, sk, src, targets, uid, k, had))
  {
    UpsertReadOff(ks, sk, src, had, uid);
    if had.Some? {
      PruneReadOff(ks, sk, targets, uid, k, had.value);
    }
    hide Placed;
    hide LeaveAlone;
    hide Prunable;
    hide WrittenOver;
    hide Doomed;
  }

  lemma PrunedReadOff(ks: KeySet, sk: Key, uid: string, k: Key, had: Option<Obj>)
    ensures PrunedTo(ks, sk, uid, had, SweptAt(ks, sk, {}, uid, k, had))
  {
    if had.Some? {
      PruneReadOff(ks, sk, {}, uid, k, had.value);
    }
    hide Prunable;
    hide Doomed;
  }

  // ------------------------------------------------------------- a whole pass

  ghost predicate SameAt(w0: World, w1: World, c: Cluster, k: Key) {
    At(StoreOf(w1, c), k) == At(StoreOf(w0, c), k)
  }

  ghost predicate KeyOfPass(cfg: Config, uid: string, sk: Key, src: Obj, wanted: bool, w0: World, w1: World, c: Cluster, k: Key) {
    KeyAfter(cfg.ks, sk, uid, src, wanted, k, At(StoreOf(w0, c), k), At(StoreOf(w1, c), k))
  }

  /** fs without the finalizers of these domains. */
  ghost predicate Without(ds: seq<Keys.Keys>, fs: seq<string>, now: seq<string>) {
    forall f :: f in now <==> f in fs && forall d :: d in ds ==> f != d.finalizer
  }

  lemma NamespacesWanted(cfg: Config, nss: Namespaces, sk: Key, sel: Selector, ns: string)
    ensures ns in Targets(cfg, nss, sk, sel) <==> WantedHere(cfg, nss, sk, sel, ns)
  {
  }

  lemma NamespacesAsked(registered: map<string, Cluster>, home: string, csv: string, c: Cluster, ns: string)
    ensures ns in DestsOn(registered, home, csv, c) <==> WantedOn(registered, home, csv, c, ns)
  {
    hide TargetClusters.Parsed;
    var m := TargetClusters.Parsed(csv);
    if ns in DestsOn(registered, home, csv, c) {
      var id :| id in registered && registered[id] == c && ns in TargetClusters.Dests(home, csv, id);
      var n :| 0 <= n < |m[id]| && ns == if m[id][n] == "" then home else m[id][n];
      assert m[id][n] in m[id];
    }
    if WantedOn(registered, home, csv, c, ns) {
      var id, n :| id in registered && registered[id] == c && id in m && n in m[id] && ns == if n == "" then home else n;
      var i :| 0 <= i < |m[id]| && m[id][i] == n;
      assert TargetClusters.Resolve(home, m[id])[i] == ns;
      assert ns in TargetClusters.Dests(home, csv, id);
    }
  }

  /** The source is live, its finalizers are in place, and the first sync annotation on it, that of
      domain i, parses to sel. */
  ghost predicate AsksFor(cfg: Config, i: int, src: Obj, sel: Selector) {
    && !src.deleting && SyncedFirst(cfg.ks, i, src) && FinalizedAnew(cfg.ks, src)
    && cfg.parse(src.annotations[cfg.ks.Each()[i].syncAnnotation]) == Some(sel)
  }

  /** A replicating pass on the hub: in the namespaces its selector matches, but for its own, the
      excluded and the terminating ones, the copy stands or an object that is none of its
      business as it was; everywhere else its copies are gone, and nothing else has changed. */
  lemma HubAfterReplicating(cfg: Config, nss: Namespaces, spokes: Spokes, sk: Key, i: int, sel: Selector,
                            w0: World, w1: World, k: Key)
    requires cfg.ks.Sound() && Passed(cfg, nss, spokes, sk, w0, w1) && sk in StoreOf(w0, cfg.hub)
    requires AsksFor(cfg, i, StoreOf(w0, cfg.hub)[sk], sel)
    ensures KeyOfPass(cfg, "", sk, StoreOf(w0, cfg.hub)[sk], WantedHere(cfg, nss, sk, sel, k.ns), w0, w1, cfg.hub, k)
  {
    var o := StoreOf(w0, cfg.hub)[sk];
    BranchReadOff(cfg, o);
    ReplicateScope(cfg, nss, spokes, sk, sel, o, cfg.hub);
    NamespacesWanted(cfg, nss, sk, sel, k.ns);
    SyncedReadOff(cfg.ks, sk, o, Targets(cfg, nss, sk, sel), "", k, At(StoreOf(w0, cfg.hub), k));
    hide BranchOf;
    hide BranchAt;
    hide SyncedAt;
    hide KeyAfter;
    hide Targets;
    hide WantedHere;
  }

  /** And on a spoke: only a source with a target-clusters annotation touches one, and then the
      copy, under this hub's name, stands in exactly the namespaces the annotation lists, and no
      other hub's copy has changed. */
  lemma SpokeAfterReplicating(cfg: Config, nss: Namespaces, registered: map<string, Cluster>, sk: Key, i: int, sel: Selector,
                              w0: World, w1: World, c: Cluster, k: Key)
    requires cfg.ks.Sound() && Passed(cfg, nss, Some(registered), sk, w0, w1) && sk in StoreOf(w0, cfg.hub)
    requires AsksFor(cfg, i, StoreOf(w0, cfg.hub)[sk], sel) && c != cfg.hub
    ensures var o := StoreOf(w0, cfg.hub)[sk];
            && (c !in registered.Values || (forall d :: d in cfg.ks.Each() ==> d.targetClustersAnnotation !in o.annotations) ==>
                  SameAt(w0, w1, c, k))
            && (forall j :: c in registered.Values && ListedFirst(cfg.ks, j, o) ==>
                  KeyOfPass(cfg, cfg.hubUid, sk, o,
                            WantedOn(registered, sk.ns, o.annotations[cfg.ks.Each()[j].targetClustersAnnotation], c, k.ns), w0, w1, c, k))
  {
    var o := StoreOf(w0, cfg.hub)[sk];
    BranchReadOff(cfg, o);
    ClustersAreTheValue(cfg.ks, o);
    ReplicateScope(cfg, nss, Some(registered), sk, sel, o, c);
    var dests := DestsOn(registered, sk.ns, TargetsText(cfg.ks, o), c);
    NamespacesAsked(registered, sk.ns, TargetsText(cfg.ks, o), c, k.ns);
    SyncedReadOff(cfg.ks, sk, o, dests, cfg.hubUid, k, At(StoreOf(w0, c), k));
    assert At(StoreOf(w1, c), k)
        == PassAt(cfg, nss, Some(registered), sk, At(StoreOf(w0, cfg.hub), sk), c, k, At(StoreOf(w0, c), k));
    hide BranchOf;
    hide BranchAt;
    hide SyncedAt;
    hide KeyAfter;
    hide DestsOn;
    hide WantedOn;
    hide Passed;
    hide FirstTargets;
  }

  /** A source on its way out, or no longer annotated, that still carries a finalizer: every copy
      this hub may delete is deleted, and the source loses all Replikate finalizers and no
      others, so that it goes if it was on its way out and nothing else holds it. */
  lemma AfterCleaning(cfg: Config, nss: Namespaces, spokes: Spokes, sk: Key, w0: World, w1: World, c: Cluster, k: Key)
    requires Passed(cfg, nss, spokes, sk, w0, w1) && sk in StoreOf(w0, cfg.hub) && cfg.ks.Sound()
    requires var o := StoreOf(w0, cfg.hub)[sk]; (o.deleting || Unsynced(cfg.ks, o)) && !Unfinalized(cfg.ks, o)
    ensures var o, now := StoreOf(w0, cfg.hub)[sk], At(StoreOf(w1, c), k);
            if c == cfg.hub && k == sk then
              exists fs :: Without(cfg.ks.Each(), o.finalizers, fs)
                           && now == if o.deleting && fs == [] then None else Some(o.(finalizers := fs))
            else if c == cfg.hub || (spokes.Some? && c in spokes.value.Values) then
              PrunedTo(cfg.ks, sk, if c == cfg.hub then "" else cfg.hubUid, At(StoreOf(w0, c), k), now)
            else SameAt(w0, w1, c, k)
  {
    var o := StoreOf(w0, cfg.hub)[sk];
    BranchReadOff(cfg, o);
    CleanUpBranch(cfg, nss, spokes, sk, o, c);
    PrunedReadOff(cfg.ks, sk, if c == cfg.hub then "" else cfg.hubUid, k, At(StoreOf(w0, c), k));
    assert At(StoreOf(w1, c), k) == PassAt(cfg, nss, spokes, sk, At(StoreOf(w0, cfg.hub), sk), c, k, At(StoreOf(w0, c), k));
    assert Without(cfg.ks.Each(), o.finalizers, Released(cfg, o).finalizers);
    hide BranchOf;
    hide PrunedTo;
    hide Passed;
    hide KeySet.Sound;
  }

  /** A source that is none of the controller's business, or whose selector does not parse, or
      that is not there: nothing changes anywhere. */
  lemma QuietPasses(cfg: Config, nss: Namespaces, spokes: Spokes, sk: Key, w0: World, w1: World, c: Cluster, k: Key)
    requires cfg.ks.Sound() && Passed(cfg, nss, spokes, sk, w0, w1)
    requires sk in StoreOf(w0, cfg.hub) ==>
               var o := StoreOf(w0, cfg.hub)[sk];
               || ((o.deleting || Unsynced(cfg.ks, o)) && Unfinalized(cfg.ks, o))
               || (!o.deleting && FinalizedAnew(cfg.ks, o)
                   && exists i :: SyncedFirst(cfg.ks, i, o) && cfg.parse(o.annotations[cfg.ks.Each()[i].syncAnnotation]) == None)
    ensures SameAt(w0, w1, c, k)
  {
    hide KeySet.Sound;
    hide KeySet.MigratedFinalizers;
    hide FinalizedAnew;
    hide Unfinalized;
    assert At(StoreOf(w1, c), k) == PassAt(cfg, nss, spokes, sk, At(StoreOf(w0, cfg.hub), sk), c, k, At(StoreOf(w0, c), k));
    hide Passed;
    if sk in StoreOf(w0, cfg.hub) {
      BranchReadOff(cfg, StoreOf(w0, cfg.hub)[sk]);
      hide BranchOf;
    }
  }

  /** fs with the primary finalizer, without the legacy ones, and with all others as they were. */
  ghost predicate Renewed(ks: KeySet, fs: seq<string>, now: seq<string>) {
    forall f :: f in now <==> f == ks.primary.finalizer || (f in fs && forall d :: d in ks.legacy ==> f != d.finalizer)
  }

  /** A live source whose finalizers are not in place gets them, and nothing else happens. */
  lemma AfterFixing(cfg: Config, nss: Namespaces, spokes: Spokes, sk: Key, w0: World, w1: World, c: Cluster, k: Key)
    requires cfg.ks.Sound() && Passed(cfg, nss, spokes, sk, w0, w1) && sk in StoreOf(w0, cfg.hub)
    requires var o := StoreOf(w0, cfg.hub)[sk]; !o.deleting && !Unsynced(cfg.ks, o) && !FinalizedAnew(cfg.ks, o)
    ensures var o := StoreOf(w0, cfg.hub)[sk];
            if c == cfg.hub && k == sk then
              exists fs :: Renewed(cfg.ks, o.finalizers, fs) && At(StoreOf(w1, c), k) == Some(o.(finalizers := fs))
            else SameAt(w0, w1, c, k)
  {
    hide KeySet.Sound;
    hide KeySet.MigratedFinalizers;
    hide FinalizedAnew;
    var o := StoreOf(w0, cfg.hub)[sk];
    assert At(StoreOf(w1, c), k) == PassAt(cfg, nss, spokes, sk, At(StoreOf(w0, cfg.hub), sk), c, k, At(StoreOf(w0, c), k));
    hide Passed;
    BranchReadOff(cfg, o);
    hide BranchOf;
    FixBranch(cfg, nss, spokes, sk, o, c);
    hide BranchAt;
    MigratedFinalizersMeaning(cfg.ks, o.finalizers);
    assert Renewed(cfg.ks, o.finalizers, Migrated(cfg, o).finalizers);
  }

  // ------------------------------------------------------------------- events

  /** Whom an event about an object wakes: the object itself if it carries a sync annotation or a
      finalizer of any domain, and the source its first stamp names in full. */
  lemma EventsWake(ks: KeySet, k: Key, o: Obj, sk: Key)
    ensures sk in Woken(ks, k, o) <==>
              || (sk == k && !(Unsynced(ks, o) && Unfinalized(ks, o)))
              || (sk.ns != "" && sk.name != "" && BearsName(ks, sk, o))
  {
    CopyOriginReadOff(ks, sk, o);
    hide BearsName;
  }

  // ---------------------------------------------------------- a run come to rest

  /** At rest on the hub, an annotated source none of whose wanted keys was blocked has its copy,
      label by label, in every namespace its selector matches, but for its own, the excluded and
      the terminating ones, and no live object elsewhere bears its name. */
  lemma AtRestCopiesStand(cfg: Config, ss: seq<State>, ms: seq<Move>, j: nat, i: nat, sk: Key, n: int, sel: Selector)
    requires IsListedRun(cfg, ss, ms) && j <= i < |ss| && Wakes(ss, j, sk) && AtRest(ss[i])
    requires sk in ss[i].store && !ss[i].store[sk].obj.deleting && SyncedFirst(cfg.ks, n, ss[i].store[sk].obj)
    requires cfg.parse(ss[i].store[sk].obj.annotations[cfg.ks.Each()[n].syncAnnotation]) == Some(sel)
    requires forall ns :: WantedHere(cfg, ss[i].namespaces, sk, sel, ns) ==> FreeOfBlockers(cfg, ss, ms, j, sk, ns)
    ensures var s, src := ss[i], ss[i].store[sk].obj;
            && (forall ns :: WantedHere(cfg, s.namespaces, sk, sel, ns) ==>
                  && CopyKey(sk, ns) in s.store
                  && WrittenOver(cfg.ks, sk, "", src, Some(s.store[CopyKey(sk, ns)].obj), s.store[CopyKey(sk, ns)].obj))
            && (forall k :: k in s.store && !s.store[k].obj.deleting && BearsName(cfg.ks, sk, s.store[k].obj) ==>
                  k.name == sk.name && WantedHere(cfg, s.namespaces, sk, sel, k.ns))
  {
    var s, src := ss[i], ss[i].store[sk].obj;
    SelectorIsTheValue(cfg.ks, n, src);
    ListedGivesInv(cfg, ss, ms, i);
    SourceIsNamedAndSound(cfg, s, sk);
    hide IsListedRun;
    hide FreeOfBlockers;
    hide Inv;
    forall ns ensures ns in Targets(cfg, s.namespaces, sk, sel) <==> WantedHere(cfg, s.namespaces, sk, sel, ns) {
      NamespacesWanted(cfg, s.namespaces, sk, sel, ns);
    }
    forall ns | Wants(cfg, s, sk, ns) ensures FreeOfBlockers(cfg, ss, ms, j, sk, ns) {
      WantsItsTargets(cfg, s, sk, ns);
    }
    QuiescentMeansConverged(cfg, ss, ms, j, i, sk);
    hide Targets;
    hide WantedHere;
    forall ns | WantedHere(cfg, s.namespaces, sk, sel, ns)
      ensures CopyKey(sk, ns) in s.store
      ensures WrittenOver(cfg.ks, sk, "", src, Some(s.store[CopyKey(sk, ns)].obj), s.store[CopyKey(sk, ns)].obj)
    {
      assert PlacedAt(cfg.ks, s, sk, src, ns);
      CopyIsReadOff(cfg.ks, sk, src, "", Some(s.store[CopyKey(sk, ns)].obj), s.store[CopyKey(sk, ns)].obj);
    }
    forall k | k in s.store && !s.store[k].obj.deleting && BearsName(cfg.ks, sk, s.store[k].obj)
      ensures k.name == sk.name && WantedHere(cfg, s.namespaces, sk, sel, k.ns)
    {
      CopyOriginReadOff(cfg.ks, sk, s.store[k].obj);
      assert LiveCopyAt(cfg.ks, s, k, sk);
    }
  }

  lemma WantsItsTargets(cfg: Config, s: State, sk: Key, ns: string)
    requires Wants(cfg, s, sk, ns)
    ensures cfg.parse(SelectorText(cfg.ks, s.store[sk].obj)).Some?
    ensures ns in Targets(cfg, s.namespaces, sk, cfg.parse(SelectorText(cfg.ks, s.store[sk].obj)).value)
  {
    hide Targets;
  }

  lemma SourceIsNamedAndSound(cfg: Config, s: State, sk: Key)
    requires Inv(cfg, s) && sk in s.store && cfg.ks.IsSource(s.store[sk].obj)
    ensures cfg.ks.Sound() && sk.ns != "" && sk.name != ""
  {
    StoredOk(cfg.ks, s, sk);
  }

  /** At rest on the hub, after cleaning lists that missed nothing alive, no live object bears the
      name of a source that is gone, on its way out or without a sync annotation. */
  lemma AtRestNothingLeft(cfg: Config, ss: seq<State>, ms: seq<Move>, i: nat, sk: Key, k: Key)
    requires IsListedRun(cfg, ss, ms) && i < |ss| && CleansFully(cfg, ss, ms, i) && AtRest(ss[i])
    requires sk.ns != "" && sk.name != ""
    requires sk in ss[i].store ==> ss[i].store[sk].obj.deleting || Unsynced(cfg.ks, ss[i].store[sk].obj)
    requires k in ss[i].store && !ss[i].store[k].obj.deleting
    ensures !BearsName(cfg.ks, sk, ss[i].store[k].obj)
  {
    hide IsListedRun;
    hide CleansFully;
    QuiescentMeansCleanedUp(cfg, ss, ms, i, sk, k);
    CopyOriginReadOff(cfg.ks, sk, ss[i].store[k].obj);
    hide BearsName;
  }
}
