/** From the shares of single clusters to the meaning of a whole reconcile. */
module Outcomes {
  import opened Objects
  import opened KeySets
  import opened Copies
  import opened Reconciling
  import opened Api
  import opened Calls
  import TargetClusters
  import Registry
  import Migration

  /** No list the pass makes on cluster c misses an object that it has to delete. */
  ghost predicate InView(cfg: Config, nss: Namespaces, spokes: Spokes, sk: Key, branch: Branch, src: Obj, c: Cluster, a: Snap) {
    match branch
    case CleanUp => Observed(cfg.ks, sk, {}, if c == cfg.hub then "" else cfg.hubUid, c, a)
    case Replicate(sel) =>
      (match Scope(cfg, nss, spokes, sk, src, sel, c)
       case None => true
       case Some((targets, oc)) => Observed(cfg.ks, sk, targets, oc, c, a))
    case _ => true
  }

  /** A pass that took this branch, as seen on cluster c. Whatever failed or was missed, every
      key is as before the pass or as after a full one; and if no call failed on c nor on the
      hub, with all in view c is exactly as after a full one, written to exactly where the
      branch says. */
  ghost predicate BranchDone(cfg: Config, nss: Namespaces, spokes: Spokes, sk: Key, branch: Branch, src: Obj, c: Cluster,
                             a: Snap, b: Snap) {
    && (forall k: Key :: Holds(b.stores, c, k) == Holds(a.stores, c, k)
             || Holds(b.stores, c, k) == BranchAt(cfg, nss, spokes, sk, branch, src, c, k, Holds(a.stores, c, k)))
    && (b.faults[c] == a.faults[c] && b.faults[cfg.hub] == a.faults[cfg.hub]
        && InView(cfg, nss, spokes, sk, branch, src, c, a) ==>
          && (forall k: Key :: Holds(b.stores, c, k)
                                 == BranchAt(cfg, nss, spokes, sk, branch, src, c, k, Holds(a.stores, c, k)))
          && (StoreOf(a.lag, c) == map[] ==> forall k :: (c, k) in b.touched <==>
                (c, k) in a.touched || BranchWrites(cfg, nss, spokes, sk, branch, src, c, k, Holds(a.stores, c, k))))
  }

  // ---------------------------------------------------------------- replicating

  lemma HubReplicated(cfg: Config, nss: Namespaces, spokes: Spokes, sk: Key, sel: Selector, src: Obj, a: Snap, b: Snap)
    requires ClusterDone(cfg.ks, sk, src, Targets(cfg, nss, sk, sel), "", cfg.hub, a, b)
    ensures BranchDone(cfg, nss, spokes, sk, Replicate(sel), src, cfg.hub, a, b)
  {
    hide SyncedAt;
    hide SyncWrites;
    hide Observed;
    ReplicateScope(cfg, nss, spokes, sk, sel, src, cfg.hub);
  }

  /** The namespaces asked of a cluster are those asked of the one id that reaches it. */
  lemma DestsOnOne(cfg: Config, registered: map<string, Cluster>, home: string, csv: string, id: string)
    requires Separate(cfg, Some(registered)) && id in registered
    ensures DestsOn(registered, home, csv, registered[id]) == TargetClusters.Dests(home, csv, id)
  {
  }

  lemma SpokeReplicated(cfg: Config, nss: Namespaces, registered: map<string, Cluster>, sk: Key, sel: Selector, src: Obj,
                        id: string, a: Snap, m: Snap, b: Snap)
    requires Separate(cfg, Some(registered)) && id in registered && cfg.ks.TargetClustersValue(src.annotations).Some?
    requires Alone(a, m, registered[id])
    requires ClusterDone(cfg.ks, sk, src, Wanted(sk, Some(TargetsText(cfg.ks, src)), id), cfg.hubUid, registered[id], m, b)
    ensures BranchDone(cfg, nss, Some(registered), sk, Replicate(sel), src, registered[id], a, b)
  {
    hide SyncedAt;
    hide SyncWrites;
    hide Observed;
    hide DestsOn;
    hide TargetClusters.Dests;
    DestsOnOne(cfg, registered, sk.ns, TargetsText(cfg.ks, src), id);
    AloneObserves(cfg.ks, sk, Wanted(sk, Some(TargetsText(cfg.ks, src)), id), cfg.hubUid, registered[id], a, m);
    ReplicateScope(cfg, nss, Some(registered), sk, sel, src, registered[id]);
  }

  /** A cluster that was not called: rightly so, or because the hub failed first. */
  lemma NotReplicated(cfg: Config, nss: Namespaces, spokes: Spokes, sk: Key, sel: Selector, src: Obj, c: Cluster,
                      a: Snap, b: Snap)
    requires Alone(a, b, c)
    requires b.faults[cfg.hub] != a.faults[cfg.hub] || Scope(cfg, nss, spokes, sk, src, sel, c).None?
    ensures BranchDone(cfg, nss, spokes, sk, Replicate(sel), src, c, a, b)
  {
    hide SyncedAt;
    hide SyncWrites;
    hide Observed;
    hide Scope;
    ReplicateScope(cfg, nss, spokes, sk, sel, src, c);
  }

  /** The hub's share, then every spoke's: the whole of a replicating pass. */
  lemma AllReplicated(cfg: Config, nss: Namespaces, registered: map<string, Cluster>, sk: Key, sel: Selector, src: Obj,
                      a: Snap, m: Snap, b: Snap, c: Cluster)
    requires Separate(cfg, Some(registered)) && cfg.ks.TargetClustersValue(src.annotations).Some?
    requires Confined(a, m, cfg.hub) && ClusterDone(cfg.ks, sk, src, Targets(cfg, nss, sk, sel), "", cfg.hub, a, m)
    requires FannedOut(cfg, sk, src, registered, Some(TargetsText(cfg.ks, src)), m, b)
    ensures BranchDone(cfg, nss, Some(registered), sk, Replicate(sel), src, c, a, b)
  {
    hide ClusterDone;
    hide BranchDone;
    hide Confined;
    hide Alone;
    AloneHere(a, cfg.hub);
    if c == cfg.hub {
      ShareIsLocal(cfg.ks, sk, src, Targets(cfg, nss, sk, sel), "", c, a, a, m, b);
      HubReplicated(cfg, nss, Some(registered), sk, sel, src, a, b);
    } else {
      ConfinedLeavesAlone(a, m, cfg.hub, c);
      if c in registered.Values {
        var id :| id in registered && registered[id] == c;
        SpokeReplicated(cfg, nss, registered, sk, sel, src, id, a, m, b);
      } else {
        AloneJoins(a, m, b, c);
        NotReplicated(cfg, nss, Some(registered), sk, sel, src, c, a, b);
      }
    }
  }

  /** The hub's share alone: no fan-out was asked for, or the hub failed. */
  lemma HubOnlyReplicated(cfg: Config, nss: Namespaces, spokes: Spokes, sk: Key, sel: Selector, src: Obj,
                          a: Snap, b: Snap, c: Cluster)
    requires Confined(a, b, cfg.hub) && ClusterDone(cfg.ks, sk, src, Targets(cfg, nss, sk, sel), "", cfg.hub, a, b)
    requires !FansOut(cfg, spokes, src) || b.faults[cfg.hub] != a.faults[cfg.hub]
    ensures BranchDone(cfg, nss, spokes, sk, Replicate(sel), src, c, a, b)
  {
    hide ClusterDone;
    hide BranchDone;
    hide Confined;
    hide Alone;
    if c == cfg.hub {
      HubReplicated(cfg, nss, spokes, sk, sel, src, a, b);
    } else {
      ConfinedLeavesAlone(a, b, cfg.hub, c);
      NotReplicated(cfg, nss, spokes, sk, sel, src, c, a, b);
    }
  }

  // ---------------------------------------------------------------- cleaning up

  /** The last call of a clean-up: the source written without Replikate's finalizers, or
      perhaps not if it failed. */
  ghost predicate Freed(cfg: Config, sk: Key, src: Obj, a: Snap, b: Snap, err: bool) {
    && OnlyAt(a.stores, b.stores, cfg.hub, sk, Holds(b.stores, cfg.hub, sk))
    && (Holds(b.stores, cfg.hub, sk) == (if Holds(a.stores, cfg.hub, sk).Some? then Live(Released(cfg, src)) else None)
        || (err && Holds(b.stores, cfg.hub, sk) == Holds(a.stores, cfg.hub, sk)))
    && Confined(a, b, cfg.hub)
    && b.faults == a.faults + (if err then multiset{cfg.hub} else multiset{})
    && b.touched == a.touched + {(cfg.hub, sk)}
  }

  /** The stages of a clean-up on the hub: after the prune, and after the last write. */
  lemma HubStages(cfg: Config, sk: Key, src: Obj, a: Snap, m: Snap, p: Snap, b: Snap, n: nat, err: bool)
    requires Holds(a.stores, cfg.hub, sk) == Some(src) && !Stamped(cfg.ks, sk, src)
    requires Pruned(cfg.ks, sk, {}, "", cfg.hub, a, m, n, false) && Alone(m, p, cfg.hub) && Freed(cfg, sk, src, p, b, err)
    ensures b.faults[cfg.hub] == a.faults[cfg.hub] + if err then 1 else 0
    ensures forall k: Key :: k != sk ==> Holds(b.stores, cfg.hub, k) == Holds(m.stores, cfg.hub, k)
    ensures Holds(b.stores, cfg.hub, sk) == Live(Released(cfg, src)) || (err && Holds(b.stores, cfg.hub, sk) == Some(src))
    ensures forall k :: (cfg.hub, k) in b.touched <==> (cfg.hub, k) in m.touched || k == sk
  {
    hide Stamped;
    hide Observed;
    hide Confined;
    hide Foreign;
    hide AfterDelete;
    assert Holds(m.stores, cfg.hub, sk) == Some(src);
    assert StoreOf(p.stores, cfg.hub) == StoreOf(m.stores, cfg.hub);
  }

  /** The whole of a clean-up on the hub: prune everything, then free the source. */
  lemma HubCleaned(cfg: Config, nss: Namespaces, spokes: Spokes, sk: Key, src: Obj, a: Snap, m: Snap, p: Snap, b: Snap,
                   n: nat, err: bool)
    requires Holds(a.stores, cfg.hub, sk) == Some(src) && !Stamped(cfg.ks, sk, src)
    requires Pruned(cfg.ks, sk, {}, "", cfg.hub, a, m, n, false) && Alone(m, p, cfg.hub) && Freed(cfg, sk, src, p, b, err)
    ensures BranchDone(cfg, nss, spokes, sk, CleanUp, src, cfg.hub, a, b)
  {
    hide Stamped;
    hide Observed;
    hide Confined;
    hide Freed;
    hide Alone;
    hide SweptAt;
    hide Doomed;
    hide Live;
    hide Released;
    HubStages(cfg, sk, src, a, m, p, b, n, err);
    CleanUpBranch(cfg, nss, spokes, sk, src, cfg.hub);
    hide BranchAt;
    hide BranchWrites;
  }

  /** The hub's prune failed: nothing else was called. */
  lemma HubStuck(cfg: Config, nss: Namespaces, spokes: Spokes, sk: Key, src: Obj, a: Snap, b: Snap, n: nat, c: Cluster)
    requires Holds(a.stores, cfg.hub, sk) == Some(src) && !Stamped(cfg.ks, sk, src)
    requires Pruned(cfg.ks, sk, {}, "", cfg.hub, a, b, n, true)
    ensures BranchDone(cfg, nss, spokes, sk, CleanUp, src, c, a, b)
    ensures b.faults[cfg.hub] > a.faults[cfg.hub]
  {
    hide Stamped;
    hide Observed;
    hide Foreign;
    hide AfterDelete;
    CleanUpBranch(cfg, nss, spokes, sk, src, c);
    hide BranchAt;
    hide BranchWrites;
    if c != cfg.hub {
      ConfinedLeavesAlone(a, b, cfg.hub, c);
    }
  }

  lemma SpokeCleaned(cfg: Config, nss: Namespaces, spokes: Spokes, sk: Key, src: Obj, c: Cluster, a: Snap, b: Snap)
    requires c != cfg.hub
    requires if Reached(spokes, c) then ClusterDone(cfg.ks, sk, src, {}, cfg.hubUid, c, a, b) else Alone(a, b, c)
    ensures BranchDone(cfg, nss, spokes, sk, CleanUp, src, c, a, b)
  {
    hide SyncedAt;
    hide SyncWrites;
    hide Observed;
    CleanUpBranch(cfg, nss, spokes, sk, src, c);
    hide BranchAt;
    hide BranchWrites;
  }

  lemma AllCleaned(cfg: Config, nss: Namespaces, spokes: Spokes, sk: Key, src: Obj, a: Snap, m: Snap, p: Snap, b: Snap,
                   n: nat, err: bool, c: Cluster)
    requires Separate(cfg, spokes)
    requires Holds(a.stores, cfg.hub, sk) == Some(src) && !Stamped(cfg.ks, sk, src)
    requires Pruned(cfg.ks, sk, {}, "", cfg.hub, a, m, n, false)
    requires if spokes.Some? then FannedOut(cfg, sk, src, spokes.value, None, m, p) else p == m
    requires Freed(cfg, sk, src, p, b, err)
    ensures BranchDone(cfg, nss, spokes, sk, CleanUp, src, c, a, b)
  {
    hide ClusterDone;
    hide BranchDone;
    hide Confined;
    hide Alone;
    hide Stamped;
    hide Observed;
    AloneHere(m, c);
    if c == cfg.hub {
      HubCleaned(cfg, nss, spokes, sk, src, a, m, p, b, n, err);
    } else {
      ConfinedLeavesAlone(a, m, cfg.hub, c);
      ConfinedLeavesAlone(p, b, cfg.hub, c);
      if Reached(spokes, c) {
        var id :| id in spokes.value && spokes.value[id] == c;
        ShareIsLocal(cfg.ks, sk, src, {}, cfg.hubUid, c, a, m, p, b);
      } else {
        AloneJoins(a, m, p, c);
        AloneJoins(a, p, b, c);
      }
      SpokeCleaned(cfg, nss, spokes, sk, src, c, a, b);
    }
  }

  /** The finalizers come off only after every other copy of the source is off the hub. */
  ghost predicate FreedLast(cfg: Config, sk: Key, src: Obj, a: Snap, b: Snap) {
    Observed(cfg.ks, sk, {}, "", cfg.hub, a)
    && Holds(b.stores, cfg.hub, sk) != Some(src) ==>
      forall k: Key :: k != sk ==> Holds(b.stores, cfg.hub, k) == SweptAt(cfg.ks, sk, {}, "", k, Holds(a.stores, cfg.hub, k))
  }

  lemma CleanedFreesLast(cfg: Config, sk: Key, src: Obj, a: Snap, m: Snap, p: Snap, b: Snap, n: nat, err: bool)
    requires Holds(a.stores, cfg.hub, sk) == Some(src) && !Stamped(cfg.ks, sk, src)
    requires Pruned(cfg.ks, sk, {}, "", cfg.hub, a, m, n, false) && Alone(m, p, cfg.hub) && Freed(cfg, sk, src, p, b, err)
    ensures FreedLast(cfg, sk, src, a, b)
    ensures b.faults[cfg.hub] > a.faults[cfg.hub] <==> err
  {
    hide Stamped;
    hide Observed;
    hide Confined;
    hide Freed;
    hide Alone;
    hide SweptAt;
    HubStages(cfg, sk, src, a, m, p, b, n, err);
  }

  lemma StuckFreesNothing(cfg: Config, sk: Key, src: Obj, a: Snap, b: Snap, n: nat)
    requires Holds(a.stores, cfg.hub, sk) == Some(src) && !Stamped(cfg.ks, sk, src)
    requires Pruned(cfg.ks, sk, {}, "", cfg.hub, a, b, n, true)
    ensures FreedLast(cfg, sk, src, a, b)
  {
    hide Stamped;
    hide Observed;
    hide Confined;
  }

  lemma UpdateFrees(cfg: Config, sk: Key, src: Obj, a: Snap, b: Snap, r: WriteResult)
    requires r != AlreadyExists && (r == NotFound ==> Holds(a.stores, cfg.hub, sk) == None)
    requires r == Written ==> Holds(a.stores, cfg.hub, sk).Some?
    requires OnlyAt(a.stores, b.stores, cfg.hub, sk, Holds(b.stores, cfg.hub, sk))
    requires var had := Holds(a.stores, cfg.hub, sk);
             Answered(r, had, if had.Some? then Live(Released(cfg, src)) else None, Holds(b.stores, cfg.hub, sk))
    requires Confined(a, b, cfg.hub) && b.touched == a.touched + {(cfg.hub, sk)}
    requires b.faults == a.faults + if r == Fault then multiset{cfg.hub} else multiset{}
    ensures Freed(cfg, sk, src, a, b, r == Fault)
  {
    hide OnlyAt;
    hide Confined;
  }

  /** Cleaning the spokes does not touch the hub. */
  lemma HubAlone(cfg: Config, sk: Key, src: Obj, spokes: Spokes, m: Snap, p: Snap)
    requires Separate(cfg, spokes)
    requires if spokes.Some? then FannedOut(cfg, sk, src, spokes.value, None, m, p) else p == m
    ensures Alone(m, p, cfg.hub)
  {
  }

  lemma StuckEverywhere(cfg: Config, nss: Namespaces, spokes: Spokes, sk: Key, src: Obj, a: Snap, b: Snap, n: nat)
    requires Holds(a.stores, cfg.hub, sk) == Some(src) && !Stamped(cfg.ks, sk, src)
    requires Pruned(cfg.ks, sk, {}, "", cfg.hub, a, b, n, true)
    ensures forall c :: BranchDone(cfg, nss, spokes, sk, CleanUp, src, c, a, b)
    ensures FreedLast(cfg, sk, src, a, b) && Ended(cfg, a, b, false, Failed)
  {
    hide BranchDone;
    hide Pruned;
    hide FreedLast;
    hide Stamped;
    StuckFreesNothing(cfg, sk, src, a, b, n);
    HubStuck(cfg, nss, spokes, sk, src, a, b, n, cfg.hub);
    forall c ensures BranchDone(cfg, nss, spokes, sk, CleanUp, src, c, a, b) {
      HubStuck(cfg, nss, spokes, sk, src, a, b, n, c);
    }
  }

  lemma CleanedEverywhere(cfg: Config, nss: Namespaces, spokes: Spokes, sk: Key, src: Obj, a: Snap, m: Snap, p: Snap, b: Snap,
                          n: nat, err: bool)
    requires Separate(cfg, spokes)
    requires Holds(a.stores, cfg.hub, sk) == Some(src) && !Stamped(cfg.ks, sk, src)
    requires Pruned(cfg.ks, sk, {}, "", cfg.hub, a, m, n, false)
    requires if spokes.Some? then FannedOut(cfg, sk, src, spokes.value, None, m, p) else p == m
    requires Freed(cfg, sk, src, p, b, err)
    ensures forall c :: BranchDone(cfg, nss, spokes, sk, CleanUp, src, c, a, b)
    ensures FreedLast(cfg, sk, src, a, b) && Ended(cfg, a, b, false, if err then Failed else Finished)
  {
    hide BranchDone;
    hide FannedOut;
    hide Pruned;
    hide Freed;
    hide FreedLast;
    hide Separate;
    hide Alone;
    hide Stamped;
    HubAlone(cfg, sk, src, spokes, m, p);
    CleanedFreesLast(cfg, sk, src, a, m, p, b, n, err);
    forall c ensures BranchDone(cfg, nss, spokes, sk, CleanUp, src, c, a, b) {
      AllCleaned(cfg, nss, spokes, sk, src, a, m, p, b, n, err, c);
    }
  }

  // ------------------------------------------------------------ other branches

  lemma QuietBranches(cfg: Config, nss: Namespaces, spokes: Spokes, sk: Key, src: Obj, a: Snap)
    ensures BranchOf(cfg, Some(src)) in {Nothing, BadSelector} ==>
              forall c :: BranchDone(cfg, nss, spokes, sk, BranchOf(cfg, Some(src)), src, c, a, a)
  {
    hide BranchDone;
    hide BranchOf;
    if BranchOf(cfg, Some(src)) in {Nothing, BadSelector} {
      forall c {
        NothingDone(cfg, nss, spokes, sk, BranchOf(cfg, Some(src)), src, a, c);
      }
    }
  }

  lemma NothingDone(cfg: Config, nss: Namespaces, spokes: Spokes, sk: Key, branch: Branch, src: Obj, a: Snap, c: Cluster)
    requires branch.Nothing? || branch.BadSelector?
    ensures BranchDone(cfg, nss, spokes, sk, branch, src, c, a, a)
  {
    hide Observed;
  }

  lemma FinalizersFixed(cfg: Config, nss: Namespaces, spokes: Spokes, sk: Key, src: Obj, a: Snap, b: Snap, err: bool, c: Cluster)
    requires Holds(a.stores, cfg.hub, sk) == Some(src)
    requires Confined(a, b, cfg.hub) && b.touched == a.touched + {(cfg.hub, sk)}
    requires b.faults == a.faults + if err then multiset{cfg.hub} else multiset{}
    requires OnlyAt(a.stores, b.stores, cfg.hub, sk, Holds(b.stores, cfg.hub, sk))
    requires Holds(b.stores, cfg.hub, sk) == Some(Migrated(cfg, src)) || (err && Holds(b.stores, cfg.hub, sk) == Some(src))
    ensures BranchDone(cfg, nss, spokes, sk, FixFinalizers, src, c, a, b)
  {
    hide Observed;
    hide Migrated;
    FixBranch(cfg, nss, spokes, sk, src, c);
    hide BranchAt;
    hide BranchWrites;
    if c != cfg.hub {
      ConfinedLeavesAlone(a, b, cfg.hub, c);
    }
  }

  /** If nothing failed and no list missed anything, the world is as Passed says. */
  lemma AllDone(cfg: Config, nss: Namespaces, spokes: Spokes, sk: Key, src: Obj, a: Snap, b: Snap)
    requires Holds(a.stores, cfg.hub, sk) == Some(src) && b.faults == a.faults
    requires forall c :: InView(cfg, nss, spokes, sk, BranchOf(cfg, Some(src)), src, c, a)
    requires forall c :: BranchDone(cfg, nss, spokes, sk, BranchOf(cfg, Some(src)), src, c, a, b)
    ensures Passed(cfg, nss, spokes, sk, a.stores, b.stores)
    ensures forall c, k :: StoreOf(a.lag, c) == map[] ==>
              ((c, k) in b.touched <==>
                (c, k) in a.touched || PassWrites(cfg, nss, spokes, sk, Some(src), c, k, Holds(a.stores, c, k)))
  {
    hide Observed;
    hide BranchAt;
    hide BranchWrites;
    hide BranchOf;
    forall c: Cluster, k: Key
      ensures At(StoreOf(b.stores, c), k)
           == PassAt(cfg, nss, spokes, sk, At(StoreOf(a.stores, cfg.hub), sk), c, k, At(StoreOf(a.stores, c), k))
      ensures StoreOf(a.lag, c) == map[] ==>
              ((c, k) in b.touched <==>
                (c, k) in a.touched || PassWrites(cfg, nss, spokes, sk, Some(src), c, k, Holds(a.stores, c, k)))
    {
      assert BranchDone(cfg, nss, spokes, sk, BranchOf(cfg, Some(src)), src, c, a, b);
      assert Holds(b.stores, c, k) == BranchAt(cfg, nss, spokes, sk, BranchOf(cfg, Some(src)), src, c, k, Holds(a.stores, c, k));
    }
  }

  // ------------------------------------------------------------- how it ended

  /** How a reconcile ends: done, to be retried soon because a spoke failed, or in error. */
  datatype Outcome = Finished | RequeueAfter | Failed

  /** An error is reported exactly when a call to the hub failed; an early retry exactly when
      a replicating pass had none there but some on a spoke. */
  ghost predicate Ended(cfg: Config, a: Snap, b: Snap, replicates: bool, out: Outcome) {
    && (out == Failed <==> b.faults[cfg.hub] > a.faults[cfg.hub])
    && (out == RequeueAfter <==>
          replicates && b.faults[cfg.hub] <= a.faults[cfg.hub] && exists c :: b.faults[c] > a.faults[c])
  }

  lemma HubFailed(cfg: Config, a: Snap, b: Snap, replicates: bool)
    requires Confined(a, b, cfg.hub) && b.faults[cfg.hub] > a.faults[cfg.hub]
    ensures Ended(cfg, a, b, replicates, Failed)
  {
  }

  lemma HubFinished(cfg: Config, a: Snap, b: Snap, replicates: bool)
    requires Confined(a, b, cfg.hub) && b.faults[cfg.hub] <= a.faults[cfg.hub]
    ensures Ended(cfg, a, b, replicates, Finished)
  {
  }

  lemma NobodyFailed(cfg: Config, a: Snap, replicates: bool)
    ensures Ended(cfg, a, a, replicates, Finished)
  {
  }

  lemma UpdateEnds(cfg: Config, a: Snap, b: Snap, err: bool)
    requires b.faults == a.faults + if err then multiset{cfg.hub} else multiset{}
    ensures Ended(cfg, a, b, false, if err then Failed else Finished)
  {
  }

  lemma SpokesEnded(cfg: Config, sk: Key, src: Obj, registered: map<string, Cluster>, a: Snap, m: Snap, b: Snap, failed: bool)
    requires Separate(cfg, Some(registered)) && Confined(a, m, cfg.hub) && m.faults[cfg.hub] <= a.faults[cfg.hub]
    requires FannedOut(cfg, sk, src, registered, Some(TargetsText(cfg.ks, src)), m, b) && Grew(m, b, failed)
    ensures Ended(cfg, a, b, true, if failed then RequeueAfter else Finished)
  {
    hide ClusterDone;
    assert Alone(m, b, cfg.hub);
    assert forall c :: m.faults[c] == a.faults[c];
  }

  lemma MigratedIsLive(cfg: Config, src: Obj)
    requires !src.deleting
    ensures Live(Migrated(cfg, src)) == Some(Migrated(cfg, src))
  {
  }

  /** The hub's own store is out of reach of the remote path: with spokes registered only by
      vetting, and the hub's identity known, walking them never calls the hub. */
  lemma VettedSpokesSpareTheHub(cfg: Config, sk: Key, src: Obj, csv: Option<string>, events: seq<Registry.Event>,
                                clients: map<string, Cluster>, a: Snap, b: Snap)
    requires cfg.hubUid != "" && Registry.Honest(cfg.hub, cfg.hubUid, events)
    requires var conns := Registry.Run(cfg.hubUid, Registry.Empty, events).clusters;
             clients == map id | id in conns :: conns[id].client
    requires FannedOut(cfg, sk, src, clients, csv, a, b)
    ensures Alone(a, b, cfg.hub)
  {
    hide ClusterDone;
    hide Alone;
    forall id | id in clients ensures clients[id] != cfg.hub {
      Registry.HubIsNeverASpoke(cfg.hub, cfg.hubUid, events, id);
    }
  }

  // ------------------------------------------------ between the calls of a spoke pass

  /** While a pass fills its targets every key is as before or as after a full pass. */
  lemma PartlyWhileFilling(ks: KeySet, sk: Key, src: Obj, done: set<string>, targets: set<string>, oc: string, c: Cluster,
                           a: Snap, b: Snap, failed: bool)
    requires Filling(ks, sk, src, done, oc, c, a, b, failed) && done <= targets
    ensures PartlySynced(ks, sk, src, targets, oc, StoreOf(a.stores, c), StoreOf(b.stores, c))
  {
    hide Placed;
    hide Judge;
    hide Confined;
    hide SweptAt;
    forall k: Key
      ensures At(StoreOf(b.stores, c), k) == Holds(a.stores, c, k)
        || At(StoreOf(b.stores, c), k) == SyncedAt(ks, sk, src, targets, oc, k, Holds(a.stores, c, k))
    {
      assert Holds(b.stores, c, k) == Holds(a.stores, c, k) || IsTarget(sk, done, k);
    }
  }

  /** And so it is while it prunes. */
  lemma PartlyWhilePruning(g: Job, src: Obj, c: Cluster, a: Snap, b: Snap, failed: bool,
                           now: Store, cache: Store, seen: set<string>, called: set<Key>)
    requires Filling(g.ks, g.sk, src, g.keep, g.oc, c, a, b, failed) && g.live == StoreOf(b.stores, c)
    requires g.SoFar(now, cache, seen, called)
    ensures PartlySynced(g.ks, g.sk, src, g.keep, g.oc, StoreOf(a.stores, c), now)
  {
    PartSweep(g, now, cache, seen, called);
    hide Job.SoFar;
    hide Placed;
    hide Judge;
    hide Confined;
    hide Doomed;
    forall k: Key
      ensures At(now, k) == Holds(a.stores, c, k)
        || At(now, k) == SyncedAt(g.ks, g.sk, src, g.keep, g.oc, k, Holds(a.stores, c, k))
    {
      assert Holds(b.stores, c, k) == Holds(a.stores, c, k) || IsTarget(g.sk, g.keep, k);
      assert At(now, k) == At(g.live, k) || At(now, k) == SweptAt(g.ks, g.sk, g.keep, g.oc, k, At(g.live, k));
    }
  }

  /** So an owned copy in a target namespace stands after every single call of a spoke pass:
      what holds between the upserts (Filling) and between the deletes (SoFar) says so. */
  lemma TargetStandsThroughout(g: Job, src: Obj, done: set<string>, c: Cluster, a: Snap, b: Snap, failed: bool,
                               now: Store, cache: Store, seen: set<string>, called: set<Key>, ns: string)
    requires g.ks.Sound() && g.sk.ns != "" && g.sk.name != ""
    requires Filling(g.ks, g.sk, src, done, g.oc, c, a, b, failed) && done <= g.keep
    requires now == StoreOf(b.stores, c)
          || (done == g.keep && g.live == StoreOf(b.stores, c) && g.SoFar(now, cache, seen, called))
    requires ns in g.keep && Key(ns, g.sk.name) in StoreOf(a.stores, c)
    requires g.ks.OwnsCopy(StoreOf(a.stores, c)[Key(ns, g.sk.name)], g.sk, g.oc)
    ensures Key(ns, g.sk.name) in now && g.ks.OwnsCopy(now[Key(ns, g.sk.name)], g.sk, g.oc)
  {
    hide Filling;
    hide Job.SoFar;
    hide PartlySynced;
    hide KeySet.Sound;
    hide KeySet.OwnsCopy;
    if now == StoreOf(b.stores, c) {
      PartlyWhileFilling(g.ks, g.sk, src, done, g.keep, g.oc, c, a, b, failed);
    } else {
      PartlyWhilePruning(g, src, c, a, b, failed, now, cache, seen, called);
    }
    Migration.OwnedCopyIsNeverAbsent(g.ks, g.sk, src, g.keep, g.oc, StoreOf(a.stores, c), now, ns);
  }
}
