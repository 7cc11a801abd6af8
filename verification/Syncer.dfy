/** The Syncer itself (internal/controller/syncer.go, internal/controller/cross_cluster.go):
    its loops over the API, proved against the meanings given in Calls and Reconciling. */
module Syncing {
  import opened Objects
  import opened KeySets
  import opened Copies
  import opened Reconciling
  import opened Api
  import opened Registry
  import opened Calls
  import opened Outcomes
  import TargetClusters

  /** The namespaces a spoke's parsed entry asks for; none if it is not targeted. */
  function Asked(sk: Key, listed: Option<seq<string>>): set<string> {
    if listed.None? then {} else set ns | ns in TargetClusters.Resolve(sk.ns, listed.value)
  }

  lemma AskedIsWanted(sk: Key, csv: string, id: string, listed: Option<seq<string>>)
    requires var m := TargetClusters.Parsed(csv); listed == if id in m then Some(m[id]) else None
    ensures Asked(sk, listed) == Wanted(sk, Some(csv), id)
  {
  }

  lemma HeldIsLive(s: Store, k: Key)
    requires Held(s) && k in s
    ensures Live(s[k]).Some?
  {
  }

  class Syncer {
    const cfg: Config
    const fleet: Fleet
    const registry: ClusterRegistry?

    constructor (cfg: Config, fleet: Fleet, registry: ClusterRegistry?)
      ensures this.cfg == cfg && this.fleet == fleet && this.registry == registry
    {
      this.cfg, this.fleet, this.registry := cfg, fleet, registry;
    }

    /** upsertCopy: create, update or adopt the copy of src in namespace ns of cluster c. */
    method UpsertCopy(c: Cluster, sk: Key, src: Obj, ns: string, originCluster: string) returns (act: Action, err: bool)
      requires fleet.Valid()
      modifies fleet`stores, fleet`lag, fleet`unseen, fleet`faults, fleet`touched
      ensures fleet.Valid()
      ensures Upserted(cfg.ks, sk, src, ns, originCluster, c, old(fleet.Now()), fleet.Now(), act, err)
    {
      hide Judge;
      hide Placed;
      hide Verdict.Writes;
      hide Upserted;
      hide Confined;
      hide Held;
      hide OnlyAt;
      hide IsAdoptable;
      hide ContentEqual;
      hide KeySet.IsManagedCopy;
      hide KeySet.OwnsCopy;
      hide KeySet.LegacyDomainOf;
      hide KeySet.CopyLabels;
      hide KeySet.CopyAnnotations;
      ghost var start := fleet.Now();
      var ks, k := cfg.ks, Key(ns, sk.name);
      JudgeByBranch(ks, sk, src, FreshCopy(ks, sk, src, originCluster), originCluster);
      var failed, existing := fleet.Get(c, k);
      if failed {
        NotSent(ks, sk, src, ns, originCluster, c, start, true);
        return ActionNone, true;
      }
      assert fleet.Now() == start;
      if existing.None? {
        var desired := ApplyCopyMeta(ks, sk, src, Obj(map[], map[], [], false, src.payload), originCluster);
        var r := fleet.Create(c, k, desired);
        Sent(ks, sk, src, ns, originCluster, c, start, fleet.Now(), desired, r == Fault);
        if r == Fault {
          return ActionNone, true;
        }
        return ActionCreated, false;
      }
      var before := existing.value;
      JudgeByBranch(ks, sk, src, before, originCluster);
      var managed := ks.IsManagedCopy(before);
      if !managed && !IsAdoptable(before) {
        NotSent(ks, sk, src, ns, originCluster, c, start, false);
        return ActionNone, false;
      }
      if managed && !ks.OwnsCopy(before, sk, originCluster) {
        NotSent(ks, sk, src, ns, originCluster, c, start, false);
        return ActionNone, false;
      }
      var legacyDomain: Option<string> := None;
      if managed {
        legacyDomain := ks.LegacyDomainOf(before);
      }
      var after := ApplyCopyMeta(ks, sk, src, before, originCluster);
      after := after.(payload := src.payload);
      if managed && ContentEqual(before, after) {
        NotSent(ks, sk, src, ns, originCluster, c, start, false);
        return ActionNone, false;
      }
      HeldIsLive(StoreOf(fleet.stores, c), k);
      var r := fleet.Update(c, k, after);
      Sent(ks, sk, src, ns, originCluster, c, start, fleet.Now(), after, r != Written);
      if r != Written {
        return ActionNone, true;
      }
      if legacyDomain.Some? {
        return ActionUpdated, false;
      } else if managed {
        return ActionUpdated, false;
      }
      return ActionAdopted, false;
    }

    /** One item of the inner loop of deleteCopies. g and base (the keys touched before the
        call) are for the proof alone. */
    method SweepItem(c: Cluster, sk: Key, keep: Option<set<string>>, oc: string, item: Item,
                     seen0: set<string>, n0: nat,
                     ghost g: Job, ghost called0: set<Key>, ghost base: set<(Cluster, Key)>)
      returns (seen: set<string>, n: nat, err: bool, ghost called: set<Key>)
      requires fleet.Valid() && n0 == |called0|
      requires g == Job(cfg.ks, sk, Kept(keep), oc, g.live, g.lag, g.blind)
      requires g.SoFar(StoreOf(fleet.stores, c), StoreOf(fleet.lag, c), seen0, called0)
      requires g.SeenIsDone(seen0, called0) && g.FromPool(seen0, item)
      requires fleet.touched == base + OnCluster(c, called0)
      modifies fleet`stores, fleet`lag, fleet`faults, fleet`touched
      ensures fleet.Valid() && Confined(old(fleet.Now()), fleet.Now(), c)
      ensures g.SoFar(StoreOf(fleet.stores, c), StoreOf(fleet.lag, c), seen, called)
      ensures seen == seen0 + {item.key.ns} && n <= |called| && (!err ==> n == |called|)
      ensures fleet.faults == old(fleet.faults) + (if err then multiset{c} else multiset{})
      ensures !err ==> g.SeenIsDone(seen, called) && fleet.touched == base + OnCluster(c, called)
    {
      hide Job.SoFar;
      hide Job.SeenIsDone;
      hide Stamped;
      hide OnCluster;
      hide Confined;
      hide Held;
      hide Job.Pool;
      hide AfterDelete;
      hide KeySet.OriginCluster;
      ConfinedHere(fleet.Now(), c);
      seen, n, err, called := seen0, n0, false, called0;
      if item.key.ns in seen {
        assert seen0 == seen0 + {item.key.ns};
        return;
      }
      ghost var now, cache := StoreOf(fleet.stores, c), StoreOf(fleet.lag, c);
      seen := seen + {item.key.ns};
      if keep.Some? && item.key.ns in keep.value {
        SoFarStill(g, now, cache, now, cache, seen0, called, item.key.ns);
        SkippedIsDone(g, seen0, called, item);
        return;
      }
      if oc != "" {
        var from := cfg.ks.OriginCluster(item.obj);
        if from != "" && from != oc {
          SoFarStill(g, now, cache, now, cache, seen0, called, item.key.ns);
          SkippedIsDone(g, seen0, called, item);
          return;
        }
      }
      var r := fleet.Delete(c, item.key);
      if r == Fault {
        called := FailedSoFar(g, now, cache, StoreOf(fleet.stores, c), StoreOf(fleet.lag, c), seen0, called, item);
        err := true;
        return;
      }
      DeletedSoFar(g, now, cache, StoreOf(fleet.stores, c), StoreOf(fleet.lag, c), seen0, called, item);
      CalledMore(g, seen0, called, item.key);
      OnClusterMore(c, called, item.key);
      called := called + {item.key};
      SkippedIsDone(g, seen0, called, item);
      n := n + 1;
    }

    /** The inner loop of deleteCopies, over one domain's list. */
    method SweepItems(c: Cluster, sk: Key, keep: Option<set<string>>, oc: string, items: seq<Item>,
                      seen0: set<string>, n0: nat,
                      ghost g: Job, ghost called0: set<Key>, ghost base: set<(Cluster, Key)>)
      returns (seen: set<string>, n: nat, err: bool, ghost called: set<Key>)
      requires fleet.Valid() && n0 == |called0|
      requires g == Job(cfg.ks, sk, Kept(keep), oc, g.live, g.lag, g.blind)
      requires g.SoFar(StoreOf(fleet.stores, c), StoreOf(fleet.lag, c), seen0, called0)
      requires g.SeenIsDone(seen0, called0) && forall i :: i in items ==> g.FromPool(seen0, i)
      requires fleet.touched == base + OnCluster(c, called0)
      modifies fleet`stores, fleet`lag, fleet`faults, fleet`touched
      ensures fleet.Valid() && Confined(old(fleet.Now()), fleet.Now(), c)
      ensures g.SoFar(StoreOf(fleet.stores, c), StoreOf(fleet.lag, c), seen, called)
      ensures seen0 <= seen && n <= |called| && (!err ==> n == |called|)
      ensures fleet.faults == old(fleet.faults) + (if err then multiset{c} else multiset{})
      ensures !err ==> g.SeenIsDone(seen, called) && fleet.touched == base + OnCluster(c, called)
      ensures !err ==> forall i :: i in items ==> i.key.ns in seen
    {
      hide Job.SoFar;
      hide Job.SeenIsDone;
      hide Stamped;
      hide OnCluster;
      hide Confined;
      ConfinedHere(fleet.Now(), c);
      seen, n, err, called := seen0, n0, false, called0;
      for j := 0 to |items|
        invariant fleet.Valid() && !err
        invariant Confined(old(fleet.Now()), fleet.Now(), c)
        invariant g.SoFar(StoreOf(fleet.stores, c), StoreOf(fleet.lag, c), seen, called) && g.SeenIsDone(seen, called)
        invariant n == |called| && seen0 <= seen
        invariant fleet.faults == old(fleet.faults)
        invariant forall i :: 0 <= i < j ==> items[i].key.ns in seen
        invariant fleet.touched == base + OnCluster(c, called)
      {
        assert items[j] in items && g.FromPool(seen0, items[j]);
        ghost var now := fleet.Now();
        seen, n, err, called := SweepItem(c, sk, keep, oc, items[j], seen, n, g, called, base);
        ConfinedJoins(old(fleet.Now()), now, fleet.Now(), c);
        if err {
          return;
        }
      }
    }

    /** deleteCopies: remove the copies of sk on cluster c outside keep, under every honoured
        domain, and count them. */
    method DeleteCopies(c: Cluster, sk: Key, keep: Option<set<string>>, oc: string) returns (n: nat, err: bool)
      requires fleet.Valid()
      modifies fleet`stores, fleet`lag, fleet`faults, fleet`touched
      ensures fleet.Valid()
      ensures Pruned(cfg.ks, sk, Kept(keep), oc, c, old(fleet.Now()), fleet.Now(), n, err)
    {
      hide Job.SoFar;
      hide Job.SeenIsDone;
      hide Job.ListedUnder;
      hide Stamped;
      hide OnCluster;
      hide MatchesStamp;
      hide Confined;
      hide Pruned;
      ghost var start := fleet.Now();
      ghost var g := Job(cfg.ks, sk, Kept(keep), oc, StoreOf(start.stores, c), StoreOf(start.lag, c), UnseenOn(start, c));
      ghost var called: set<Key> := {};
      ConfinedHere(start, c);
      JobStarts(g, c, start.touched);
      var each := cfg.ks.Each();
      var seen: set<string> := {};
      n, err := 0, false;
      for i := 0 to |each|
        invariant fleet.Valid() && !err && Confined(start, fleet.Now(), c)
        invariant g.SoFar(StoreOf(fleet.stores, c), StoreOf(fleet.lag, c), seen, called) && g.SeenIsDone(seen, called)
        invariant g.ListedUnder(i, seen)
        invariant n == |called|
        invariant fleet.faults == start.faults
        invariant fleet.touched == start.touched + OnCluster(c, called)
      {
        ghost var now, before, gone := fleet.Now(), seen, called;
        var failed, items := fleet.List(c, each[i], sk);
        ConfinedJoins(start, now, fleet.Now(), c);
        if failed {
          PrunedPartly(g, c, start, fleet.Now(), seen, called, n);
          err := true;
          return;
        }
        forall item | item in items ensures g.FromPool(seen, item) {
          IsStamped(cfg.ks, each[i], sk, item.obj);
          ListedFromPool(g, StoreOf(now.stores, c), StoreOf(now.lag, c), seen, called, item);
        }
        ghost var listed := fleet.Now();
        seen, n, err, called := SweepItems(c, sk, keep, oc, items, seen, n, g, called, start.touched);
        ConfinedJoins(start, listed, fleet.Now(), c);
        if err {
          PrunedPartly(g, c, start, fleet.Now(), seen, called, n);
          return;
        }
        ListedNext(g, StoreOf(now.stores, c), StoreOf(now.lag, c), before, gone, i, items, seen);
      }
      PrunedFully(g, c, start, fleet.Now(), seen, called);
    }

    /** reconcileSource's loop over the target namespaces: the first error ends it. */
    method FillLocally(sk: Key, src: Obj, targets: set<string>) returns (err: bool)
      requires fleet.Valid()
      modifies fleet`stores, fleet`lag, fleet`unseen, fleet`faults, fleet`touched
      ensures fleet.Valid()
      ensures Filling(cfg.ks, sk, src, targets, "", cfg.hub, old(fleet.Now()), fleet.Now(), err)
    {
      hide Filling;
      hide Upserted;
      ghost var start := fleet.Now();
      FillStarts(cfg.ks, sk, src, "", cfg.hub, start);
      var rest := targets;
      assert targets - rest == {};
      err := false;
      while rest != {}
        invariant fleet.Valid() && rest <= targets
        invariant Filling(cfg.ks, sk, src, targets - rest, "", cfg.hub, start, fleet.Now(), false)
      {
        var ns :| ns in rest;
        ghost var now := fleet.Now();
        var act;
        act, err := UpsertCopy(cfg.hub, sk, src, ns, "");
        FillStep(cfg.ks, sk, src, targets - rest, "", cfg.hub, start, now, fleet.Now(), ns, act, false, err);
        if err {
          FillingMore(cfg.ks, sk, src, targets - rest + {ns}, targets, "", cfg.hub, start, fleet.Now());
          return;
        }
        assert targets - rest + {ns} == targets - (rest - {ns});
        rest := rest - {ns};
      }
      assert targets - rest == targets;
    }

    /** The body of reconcileRemote's loop: fill the listed namespaces of one spoke, if it is
        targeted, and prune the rest. An error does not end it. */
    method ReconcileSpoke(c: Cluster, sk: Key, src: Obj, listed: Option<seq<string>>) returns (failed: bool)
      requires fleet.Valid()
      modifies fleet`stores, fleet`lag, fleet`unseen, fleet`faults, fleet`touched
      ensures fleet.Valid() && Confined(old(fleet.Now()), fleet.Now(), c)
      ensures ClusterDone(cfg.ks, sk, src, Asked(sk, listed), cfg.hubUid, c, old(fleet.Now()), fleet.Now())
      ensures failed <==> fleet.faults[c] > old(fleet.faults)[c]
    {
      hide Filling;
      hide Upserted;
      hide Pruned;
      hide ClusterDone;
      hide Confined;
      ghost var start := fleet.Now();
      FillStarts(cfg.ks, sk, src, cfg.hubUid, c, start);
      failed := false;
      if listed.None? {
        var n, err := DeleteCopies(c, sk, None, cfg.hubUid);
        FilledThenPruned(cfg.ks, sk, src, {}, cfg.hubUid, c, start, start, fleet.Now(), n, false, err);
        return err;
      }
      var dests := TargetClusters.DestNamespaces(sk.ns, listed.value);
      var keep: set<string> := {};
      for i := 0 to |dests|
        invariant fleet.Valid()
        invariant keep == set ns | ns in dests[..i]
        invariant Filling(cfg.ks, sk, src, keep, cfg.hubUid, c, start, fleet.Now(), failed)
      {
        ghost var now := fleet.Now();
        var act, err := UpsertCopy(c, sk, src, dests[i], cfg.hubUid);
        FillStep(cfg.ks, sk, src, keep, cfg.hubUid, c, start, now, fleet.Now(), dests[i], act, failed, err);
        keep := keep + {dests[i]};
        failed := failed || err;
      }
      assert keep == Asked(sk, listed);
      ghost var now := fleet.Now();
      var n, err := DeleteCopies(c, sk, Some(keep), cfg.hubUid);
      FilledThenPruned(cfg.ks, sk, src, keep, cfg.hubUid, c, start, now, fleet.Now(), n, failed, err);
      failed := failed || err;
    }

    /** reconcileRemote: walk every registered spoke, fill the targeted ones, prune the rest.
        It reports failed exactly when some call failed; an id that names no registered
        cluster has no effect. */
    method ReconcileRemote(sk: Key, src: Obj) returns (failed: bool)
      requires fleet.Valid() && registry != null
      modifies fleet`stores, fleet`lag, fleet`unseen, fleet`faults, fleet`touched
      ensures fleet.Valid()
      ensures FannedOut(cfg, sk, src, registry.Clients(), Some(TargetsText(cfg.ks, src)), old(fleet.Now()), fleet.Now())
      ensures Grew(old(fleet.Now()), fleet.Now(), failed)
    {
      hide FanningOut;
      hide FannedOut;
      hide ClusterDone;
      hide Confined;
      hide Asked;
      hide Wanted;
      hide TargetsText;
      hide TargetClusters.Means;
      hide TargetClusters.Parsed;
      hide Grew;
      ghost var start := fleet.Now();
      ghost var clients := registry.Clients();
      var tcValue := TargetsText(cfg.ks, src);
      var targets := TargetClusters.ParseTargetClusters(tcValue);
      var ids := registry.IDs();
      FanStarts(cfg, sk, src, clients, Some(tcValue), ids, start);
      GrewStarts(start);
      failed := false;
      for i := 0 to |ids|
        invariant fleet.Valid()
        invariant FanningOut(cfg, sk, src, clients, Some(tcValue), ids, i, start, fleet.Now())
        invariant Grew(start, fleet.Now(), failed)
      {
        var cl := registry.ClientFor(ids[i]);
        ghost var now := fleet.Now();
        var listed := if ids[i] in targets then Some(targets[ids[i]]) else None;
        var err := ReconcileSpoke(cl.value, sk, src, listed);
        AskedIsWanted(sk, tcValue, ids[i], listed);
        FanStep(cfg, sk, src, clients, Some(tcValue), ids, i, start, now, fleet.Now());
        GrewStep(start, now, fleet.Now(), cl.value, failed, err);
        failed := failed || err;
      }
      FanEnds(cfg, sk, src, clients, Some(tcValue), ids, start, fleet.Now());
    }

    /** deleteRemoteCopies: best effort; failures are not reported to the caller. */
    method DeleteRemoteCopies(sk: Key, ghost src: Obj)
      requires fleet.Valid() && registry != null
      modifies fleet`stores, fleet`lag, fleet`faults, fleet`touched
      ensures fleet.Valid()
      ensures FannedOut(cfg, sk, src, registry.Clients(), None, old(fleet.Now()), fleet.Now())
    {
      hide FanningOut;
      hide FannedOut;
      hide ClusterDone;
      hide Confined;
      hide Pruned;
      hide Filling;
      ghost var start := fleet.Now();
      ghost var clients := registry.Clients();
      var ids := registry.IDs();
      FanStarts(cfg, sk, src, clients, None, ids, start);
      for i := 0 to |ids|
        invariant fleet.Valid()
        invariant FanningOut(cfg, sk, src, clients, None, ids, i, start, fleet.Now())
      {
        var cl := registry.ClientFor(ids[i]);
        ghost var now := fleet.Now();
        var n, err := DeleteCopies(cl.value, sk, None, cfg.hubUid);
        FillStarts(cfg.ks, sk, src, cfg.hubUid, cl.value, now);
        FilledThenPruned(cfg.ks, sk, src, {}, cfg.hubUid, cl.value, now, now, fleet.Now(), n, false, err);
        FanStep(cfg, sk, src, clients, None, ids, i, start, now, fleet.Now());
      }
      FanEnds(cfg, sk, src, clients, None, ids, start, fleet.Now());
    }

    function Spoken(): Spokes
      reads registry
    {
      if registry == null then None else Some(registry.Clients())
    }

    /** What the model asks for a precise statement: distinct spoke ids reach distinct
        clusters, none of them the hub, and the source, as read, is not stamped as its own copy. */
    ghost predicate Regular(sk: Key, src: Obj)
      reads registry
    {
      Separate(cfg, Spoken()) && !Stamped(cfg.ks, sk, src)
    }

    /** cleanupAndRemoveFinalizer */
    method CleanupAndRemoveFinalizer(sk: Key, src: Obj) returns (err: bool)
      requires fleet.Valid() && Holds(fleet.stores, cfg.hub, sk) == Some(src)
      modifies fleet`stores, fleet`lag, fleet`unseen, fleet`faults, fleet`touched
      ensures fleet.Valid()
      ensures !cfg.ks.HasFinalizer(src) ==> fleet.Now() == old(fleet.Now()) && !err
      ensures Regular(sk, src) && cfg.ks.HasFinalizer(src) ==> forall c ::
                BranchDone(cfg, fleet.namespaces, Spoken(), sk, CleanUp, src, c, old(fleet.Now()), fleet.Now())
      ensures Regular(sk, src) && cfg.ks.HasFinalizer(src) ==>
                && FreedLast(cfg, sk, src, old(fleet.Now()), fleet.Now())
                && Ended(cfg, old(fleet.Now()), fleet.Now(), false, if err then Failed else Finished)
    {
      hide Ended;
      hide BranchDone;
      hide FannedOut;
      hide Pruned;
      hide Freed;
      hide FreedLast;
      hide Confined;
      hide OnlyAt;
      hide Alone;
      hide Separate;
      hide KeySet.HasFinalizer;
      if !cfg.ks.HasFinalizer(src) {
        return false;
      }
      ghost var a, nss, spokes := fleet.Now(), fleet.namespaces, Spoken();
      var n, failed := DeleteCopies(cfg.hub, sk, None, "");
      if failed {
        if Regular(sk, src) {
          StuckEverywhere(cfg, nss, spokes, sk, src, a, fleet.Now(), n);
        }
        return true;
      }
      ghost var m := fleet.Now();
      if registry != null {
        DeleteRemoteCopies(sk, src);
      }
      ghost var p := fleet.Now();
      var freed := RemoveAllFinalizers(cfg.ks, src);
      var r := fleet.Update(cfg.hub, sk, freed);
      err := r == Fault;
      assert Freed(cfg, sk, src, p, fleet.Now(), err) by { UpdateFrees(cfg, sk, src, p, fleet.Now(), r); }
      if Regular(sk, src) {
        CleanedEverywhere(cfg, nss, spokes, sk, src, a, m, p, fleet.Now(), n, err);
      }
    }

    /** The target namespaces of a source, in whatever order they are visited. */
    method SelectTargets(sk: Key, sel: Selector, nss: Namespaces) returns (targets: set<string>)
      ensures targets == Targets(cfg, nss, sk, sel)
    {
      targets := {};
      var rest := nss.Keys;
      while rest != {}
        invariant rest <= nss.Keys
        invariant forall ns :: ns in targets <==> ns in nss && ns !in rest && Eligible(cfg, sk, sel, ns, nss[ns])
      {
        var ns :| ns in rest;
        rest := rest - {ns};
        if ns == sk.ns || nss[ns].terminating {
          continue;
        }
        if ns in cfg.excluded {
          continue;
        }
        if sel(nss[ns].labels) {
          targets := targets + {ns};
        }
      }
    }

    /** The local part of a sync pass: list the namespaces, fill the targets, prune the rest. */
    method ReplicateLocally(sk: Key, src: Obj, sel: Selector) returns (err: bool)
      requires fleet.Valid()
      modifies fleet`stores, fleet`lag, fleet`unseen, fleet`faults, fleet`touched
      ensures fleet.Valid() && Confined(old(fleet.Now()), fleet.Now(), cfg.hub)
      ensures ClusterDone(cfg.ks, sk, src, Targets(cfg, fleet.namespaces, sk, sel), "", cfg.hub, old(fleet.Now()), fleet.Now())
      ensures err <==> fleet.faults[cfg.hub] > old(fleet.faults)[cfg.hub]
    {
      hide Filling;
      hide Pruned;
      hide ClusterDone;
      hide Confined;
      ghost var start := fleet.Now();
      FillStarts(cfg.ks, sk, src, "", cfg.hub, start);
      var failed, nss := fleet.ListNamespaces(cfg.hub);
      if failed {
        NotListed(cfg.ks, sk, src, Targets(cfg, fleet.namespaces, sk, sel), "", cfg.hub, start, fleet.Now());
        return true;
      }
      assert fleet.Now() == start;
      var targets := SelectTargets(sk, sel, nss);
      err := FillLocally(sk, src, targets);
      ghost var now := fleet.Now();
      if err {
        FillingOnly(cfg.ks, sk, src, targets, "", cfg.hub, start, now);
        return;
      }
      var n;
      n, err := DeleteCopies(cfg.hub, sk, Some(targets), "");
      FilledThenPruned(cfg.ks, sk, src, targets, "", cfg.hub, start, now, fleet.Now(), n, false, err);
    }

    /** The sync pass of reconcileSource: the local part, then the spokes if the source asks. */
    method Replicate(sk: Key, src: Obj, sel: Selector) returns (out: Outcome)
      requires fleet.Valid()
      modifies fleet`stores, fleet`lag, fleet`unseen, fleet`faults, fleet`touched
      ensures fleet.Valid()
      ensures Separate(cfg, Spoken()) ==> forall c ::
                BranchDone(cfg, fleet.namespaces, Spoken(), sk, Branch.Replicate(sel), src, c, old(fleet.Now()), fleet.Now())
      ensures Separate(cfg, Spoken()) ==> Ended(cfg, old(fleet.Now()), fleet.Now(), true, out)
    {
      hide BranchDone;
      hide ClusterDone;
      hide FannedOut;
      hide Confined;
      hide Separate;
      hide Grew;
      hide Ended;
      ghost var a, nss, spokes := fleet.Now(), fleet.namespaces, Spoken();
      var failed := ReplicateLocally(sk, src, sel);
      ghost var m := fleet.Now();
      if failed {
        HubFailed(cfg, a, m, true);
        forall c ensures BranchDone(cfg, nss, spokes, sk, Branch.Replicate(sel), src, c, a, m) {
          HubOnlyReplicated(cfg, nss, spokes, sk, sel, src, a, m, c);
        }
        return Failed;
      }
      if registry != null && cfg.ks.TargetClustersValue(src.annotations).Some? {
        failed := ReconcileRemote(sk, src);
        if Separate(cfg, spokes) {
          SpokesEnded(cfg, sk, src, spokes.value, a, m, fleet.Now(), failed);
          forall c ensures BranchDone(cfg, nss, spokes, sk, Branch.Replicate(sel), src, c, a, fleet.Now()) {
            AllReplicated(cfg, nss, spokes.value, sk, sel, src, a, m, fleet.Now(), c);
          }
        }
        return if failed then RequeueAfter else Finished;
      }
      HubFinished(cfg, a, m, true);
      forall c ensures BranchDone(cfg, nss, spokes, sk, Branch.Replicate(sel), src, c, a, m) {
        HubOnlyReplicated(cfg, nss, spokes, sk, sel, src, a, m, c);
      }
      return Finished;
    }

    /** reconcileSource, for a source just read as src. */
    method ReconcileSource(sk: Key, src: Obj) returns (out: Outcome)
      requires fleet.Valid() && cfg.ks.Sound() && Holds(fleet.stores, cfg.hub, sk) == Some(src)
      modifies fleet`stores, fleet`lag, fleet`unseen, fleet`faults, fleet`touched
      ensures fleet.Valid()
      ensures Regular(sk, src) ==> forall c ::
                BranchDone(cfg, fleet.namespaces, Spoken(), sk, BranchOf(cfg, Some(src)), src, c, old(fleet.Now()), fleet.Now())
      ensures Regular(sk, src) ==>
                Ended(cfg, old(fleet.Now()), fleet.Now(), BranchOf(cfg, Some(src)).Replicate?, out)
    {
      hide BranchDone;
      hide ClusterDone;
      hide FannedOut;
      hide Confined;
      hide Separate;
      hide Grew;
      hide OnlyAt;
      hide FreedLast;
      hide Ended;
      hide Held;
      hide SelectorText;
      hide KeySet.MigratedFinalizers;
      hide KeySet.HasFinalizer;
      hide KeySet.IsSource;
      ghost var a, nss, spokes := fleet.Now(), fleet.namespaces, Spoken();
      QuietBranches(cfg, nss, spokes, sk, src, a);
      NobodyFailed(cfg, a, BranchOf(cfg, Some(src)).Replicate?);
      if src.deleting {
        var err := CleanupAndRemoveFinalizer(sk, src);
        return if err then Failed else Finished;
      }
      if !cfg.ks.IsSource(src) {
        if cfg.ks.HasFinalizer(src) {
          var err := CleanupAndRemoveFinalizer(sk, src);
          return if err then Failed else Finished;
        }
        return Finished;
      }
      var fixed, changed := ReconcileFinalizer(cfg.ks, src);
      if changed {
        assert Held(StoreOf(fleet.stores, cfg.hub));
        MigratedIsLive(cfg, src);
        var r := fleet.Update(cfg.hub, sk, fixed);
        UpdateEnds(cfg, a, fleet.Now(), r == Fault);
        forall c ensures BranchDone(cfg, nss, spokes, sk, FixFinalizers, src, c, a, fleet.Now()) {
          FinalizersFixed(cfg, nss, spokes, sk, src, a, fleet.Now(), r == Fault, c);
        }
        return if r == Fault then Failed else Finished;
      }
      var selector := cfg.parse(SelectorText(cfg.ks, src));
      if selector.None? {
        return Finished;
      }
      out := Replicate(sk, src, selector.value);
    }
  }
}
