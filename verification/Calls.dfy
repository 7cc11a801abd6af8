/** What the Syncer's API loops (internal/controller/syncer.go,
    internal/controller/cross_cluster.go) amount to between two moments of the fleet: one
    upsertCopy, one deleteCopies, and one cluster's share of a pass. */
module Calls {
  import opened Objects
  import opened Keys
  import opened KeySets
  import opened Copies
  import opened Reconciling
  import opened Api
  import TargetClusters

  datatype Action = ActionNone | ActionCreated | ActionUpdated | ActionAdopted

  function ActionOf(v: Verdict): Action {
    match v
    case Create => ActionCreated
    case Refuse => ActionNone
    case Conflict => ActionNone
    case Keep => ActionNone
    case Migrate(_) => ActionUpdated
    case Refresh => ActionUpdated
    case Adopt => ActionAdopted
  }

  // ------------------------------------------- what deleteCopies has done so far

  /** What is stamped for sk bears its name, stored or still in the cache. */
  ghost predicate Tidy(ks: KeySet, sk: Key, live: Store, lag: Store) {
    Named(ks, live, sk) && Named(ks, lag, sk)
  }

  function Kept(keep: Option<set<string>>): set<string> {
    if keep.Some? then keep.value else {}
  }

  function OnCluster(c: Cluster, keys: set<Key>): set<(Cluster, Key)> {
    set k | k in keys :: (c, k)
  }

  function UnseenOn(a: Snap, c: Cluster): set<Key> {
    set p | p in a.unseen && p.0 == c :: p.1
  }

  /** deleteCopies sees all it is to delete: what is stamped for sk bears its name, and no
      list misses an object that has to go. */
  ghost predicate Observed(ks: KeySet, sk: Key, keep: set<string>, oc: string, c: Cluster, a: Snap) {
    && Tidy(ks, sk, StoreOf(a.stores, c), StoreOf(a.lag, c))
    && forall k :: (c, k) in a.unseen ==> !SweptAway(ks, sk, keep, oc, k, Holds(a.stores, c, k))
  }

  /** One call of deleteCopies: its arguments, the store and cache it started from, and the
      keys its lists may miss. */
  datatype Job = Job(ks: KeySet, sk: Key, keep: set<string>, oc: string, live: Store, lag: Store, blind: set<Key>) {

    /** The object a List during the call can report at k: as stored at the start, or
        removed before it and still in the cache. */
    function Pool(k: Key): Option<Obj> {
      if k in live then Some(live[k]) else At(lag, k)
    }

    predicate Goes(k: Key, had: Option<Obj>) {
      SweptAway(ks, sk, keep, oc, k, had)
    }

    /** The set deleteCopies deletes, in one line. */
    function Doomed(): set<Key> {
      set k | k in live && Goes(k, Some(live[k]))
    }

    /** What the call has made of the store and cache by now. called: the keys Delete has
        been called for and not failed to reach, at most one in each namespace seen. */
    ghost predicate SoFar(now: Store, cache: Store, seen: set<string>, called: set<Key>) {
      && (forall k :: At(now, k) == if k in called && k in live then AfterDelete(live[k]) else At(live, k))
      && (forall k :: k !in called ==> At(cache, k) == At(lag, k))
      && (forall k :: k in called ==> k.ns in seen && Goes(k, Pool(k)))
      && (forall a, b :: a in called && b in called && a.ns == b.ns ==> a == b)
    }

    /** Nothing to delete was passed over. */
    ghost predicate SeenIsDone(seen: set<string>, called: set<Key>) {
      Tidy(ks, sk, live, lag) ==>
        forall k :: k in live && k.ns in seen && Goes(k, Some(live[k])) ==> k in called
    }

    /** What the first i domains select has been seen, unless a list may miss it. */
    ghost predicate ListedUnder(i: nat, seen: set<string>)
      requires i <= |ks.Each()|
    {
      forall k, j :: k in live && 0 <= j < i && MatchesStamp(ks.Each()[j], live[k].labels, sk) ==>
        k in blind || k.ns in seen
    }

    /** An item of a list is what the pool held, unless its namespace has been dealt with. */
    ghost predicate FromPool(seen: set<string>, i: Item) {
      Stamped(ks, sk, i.obj) && (i.key.ns in seen || Pool(i.key) == Some(i.obj))
    }
  }

  lemma ListedFromPool(g: Job, now: Store, cache: Store, seen: set<string>, called: set<Key>, i: Item)
    requires g.SoFar(now, cache, seen, called) && Reports(now, cache, i) && Stamped(g.ks, g.sk, i.obj)
    ensures g.FromPool(seen, i)
  {
    hide Stamped;
  }

  /** In a tidy pool an item shares its namespace with no other object stamped for sk. */
  lemma OnlyOneStamped(g: Job, i: Item, k: Key)
    requires Tidy(g.ks, g.sk, g.live, g.lag) && g.Pool(i.key) == Some(i.obj) && Stamped(g.ks, g.sk, i.obj)
    requires k in g.live && Stamped(g.ks, g.sk, g.live[k]) && k.ns == i.key.ns
    ensures k == i.key && g.live[k] == i.obj
  {
    hide Stamped;
  }

  lemma SkippedIsDone(g: Job, seen: set<string>, called: set<Key>, i: Item)
    requires g.SeenIsDone(seen, called)
    requires g.Pool(i.key) == Some(i.obj) && Stamped(g.ks, g.sk, i.obj)
    requires i.key in called || !g.Goes(i.key, Some(i.obj))
    ensures g.SeenIsDone(seen + {i.key.ns}, called)
  {
    hide Stamped;
    hide Tidy;
    hide Foreign;
    if Tidy(g.ks, g.sk, g.live, g.lag) {
      forall k | k in g.live && k.ns == i.key.ns && g.Goes(k, Some(g.live[k])) ensures k in called {
        OnlyOneStamped(g, i, k);
      }
    }
  }

  lemma CalledMore(g: Job, seen: set<string>, called: set<Key>, k: Key)
    requires g.SeenIsDone(seen, called)
    ensures g.SeenIsDone(seen, called + {k})
  {
    hide SweptAway;
    hide Tidy;
  }

  lemma SoFarStill(g: Job, now: Store, cache: Store, now1: Store, cache1: Store,
                   seen: set<string>, called: set<Key>, ns: string)
    requires g.SoFar(now, cache, seen, called)
    requires forall j :: At(now1, j) == At(now, j)
    requires forall j :: At(cache1, j) == At(cache, j)
    ensures g.SoFar(now1, cache1, seen + {ns}, called)
  {
    hide SweptAway;
  }

  lemma DeletedSoFar(g: Job, now: Store, cache: Store, now1: Store, cache1: Store,
                     seen: set<string>, called: set<Key>, i: Item)
    requires g.SoFar(now, cache, seen, called)
    requires i.key.ns !in seen && g.Pool(i.key) == Some(i.obj) && g.Goes(i.key, Some(i.obj))
    requires At(now1, i.key) == if i.key in now then AfterDelete(now[i.key]) else None
    requires forall j :: j != i.key ==> At(now1, j) == At(now, j)
    requires forall j :: j != i.key ==> At(cache1, j) == At(cache, j)
    ensures i.key !in called
    ensures g.SoFar(now1, cache1, seen + {i.key.ns}, called + {i.key})
  {
    hide SweptAway;
  }

  /** A Delete that failed may have landed. */
  lemma FailedSoFar(g: Job, now: Store, cache: Store, now1: Store, cache1: Store,
                    seen: set<string>, called: set<Key>, i: Item)
    returns (reached: set<Key>)
    requires g.SoFar(now, cache, seen, called)
    requires i.key.ns !in seen && g.Pool(i.key) == Some(i.obj) && g.Goes(i.key, Some(i.obj))
    requires At(now1, i.key) == At(now, i.key) || At(now1, i.key) == if i.key in now then AfterDelete(now[i.key]) else None
    requires At(now1, i.key) == At(now, i.key) ==> forall j :: At(cache1, j) == At(cache, j)
    requires forall j :: j != i.key ==> At(now1, j) == At(now, j)
    requires forall j :: j != i.key ==> At(cache1, j) == At(cache, j)
    ensures |called| <= |reached| && g.SoFar(now1, cache1, seen + {i.key.ns}, reached)
  {
    hide Job.SoFar;
    hide SweptAway;
    hide AfterDelete;
    if At(now1, i.key) == At(now, i.key) {
      SoFarStill(g, now, cache, now1, cache1, seen, called, i.key.ns);
      reached := called;
    } else {
      DeletedSoFar(g, now, cache, now1, cache1, seen, called, i);
      reached := called + {i.key};
    }
  }

  /** Whatever the next domain selects has been deleted already or is in its list. */
  lemma ListedNext(g: Job, now: Store, cache: Store, seen: set<string>, called: set<Key>, i: nat,
                   items: seq<Item>, seen1: set<string>)
    requires i < |g.ks.Each()| && g.ListedUnder(i, seen) && seen <= seen1
    requires g.SoFar(now, cache, seen, called)
    requires forall k :: k in now && MatchesStamp(g.ks.Each()[i], now[k].labels, g.sk) ==>
               k in g.blind || Item(k, now[k]) in items
    requires forall item :: item in items ==> item.key.ns in seen1
    ensures g.ListedUnder(i + 1, seen1)
  {
    forall k, j | k in g.live && 0 <= j < i + 1 && MatchesStamp(g.ks.Each()[j], g.live[k].labels, g.sk)
      ensures k in g.blind || k.ns in seen1
    {
      if j == i && k !in called {
        assert At(now, k) == At(g.live, k);
      }
    }
  }

  lemma FullSweep(g: Job, now: Store, cache: Store, seen: set<string>, called: set<Key>)
    requires g.SoFar(now, cache, seen, called) && g.SeenIsDone(seen, called)
    requires g.ListedUnder(|g.ks.Each()|, seen) && Tidy(g.ks, g.sk, g.live, g.lag)
    requires forall k :: k in g.blind ==> !g.Goes(k, At(g.live, k))
    ensures forall k :: At(now, k) == SweptAt(g.ks, g.sk, g.keep, g.oc, k, At(g.live, k))
    ensures g.Doomed() <= called && (g.lag == map[] ==> called == g.Doomed())
  {
    hide Tidy;
    hide MatchesStamp;
    hide Foreign;
    forall k | k in g.live && g.Goes(k, Some(g.live[k])) ensures k in called {
      var d :| d in g.ks.Each() && MatchesStamp(d, g.live[k].labels, g.sk);
      var j :| 0 <= j < |g.ks.Each()| && g.ks.Each()[j] == d;
    }
  }

  lemma JobStarts(g: Job, c: Cluster, base: set<(Cluster, Key)>)
    ensures g.SoFar(g.live, g.lag, {}, {}) && g.SeenIsDone({}, {}) && g.ListedUnder(0, {})
    ensures base == base + OnCluster(c, {})
  {
  }

  lemma IsStamped(ks: KeySet, d: Keys, sk: Key, o: Obj)
    requires d in ks.Each() && MatchesStamp(d, o.labels, sk)
    ensures Stamped(ks, sk, o)
  {
  }

  lemma OnePerNamespace(g: Job, now: Store, cache: Store, seen: set<string>, called: set<Key>)
    requires g.SoFar(now, cache, seen, called)
    ensures forall a: Key, b: Key :: a != b && a.ns == b.ns ==> At(now, a) == At(g.live, a) || At(now, b) == At(g.live, b)
  {
    hide Job.Goes;
  }

  lemma PartSweep(g: Job, now: Store, cache: Store, seen: set<string>, called: set<Key>)
    requires g.SoFar(now, cache, seen, called)
    ensures forall k :: At(now, k) == At(g.live, k) || At(now, k) == SweptAt(g.ks, g.sk, g.keep, g.oc, k, At(g.live, k))
  {
  }

  lemma OnClusterMore(c: Cluster, called: set<Key>, k: Key)
    ensures OnCluster(c, called + {k}) == OnCluster(c, called) + {(c, k)}
  {
  }

  /** upsertCopy's branches, one by one. */
  lemma JudgeByBranch(ks: KeySet, sk: Key, src: Obj, e: Obj, oc: string)
    ensures Judge(ks, sk, src, None, oc) == Create && Judge(ks, sk, src, None, oc).Writes()
    ensures Placed(ks, sk, src, None, oc) == Some(FreshCopy(ks, sk, src, oc))
    ensures var m, v := Mirror(ks, sk, src, e, oc), Judge(ks, sk, src, Some(e), oc);
            && (if !ks.IsManagedCopy(e) then v == (if IsAdoptable(e) then Adopt else Refuse)
                else if !ks.OwnsCopy(e, sk, oc) then v == Conflict
                else if ContentEqual(e, m) then v == Keep
                else ActionOf(v) == ActionUpdated)
            && Placed(ks, sk, src, Some(e), oc) == Some(if ActionOf(v) == ActionNone then e else m)
            && (v.Writes() <==> ActionOf(v) != ActionNone)
  {
  }

  /** What upsertCopy reports, against what it did: created where nothing was, nothing where the
      object stays, adopted where an unmanaged one changed, updated where a managed one did. */
  lemma ActionTells(ks: KeySet, sk: Key, src: Obj, had: Option<Obj>, oc: string)
    requires ks.Sound()
    ensures var now := Placed(ks, sk, src, had, oc);
            ActionOf(Judge(ks, sk, src, had, oc))
              == if now == had then ActionNone
                 else if had.None? then ActionCreated
                 else if forall d :: d in ks.Each() ==> Lookup(had.value.labels, d.managedByLabel) != "replikate" then ActionAdopted
                 else ActionUpdated
  {
    PlacedMeaning(ks, sk, src, had, oc);
    hide Untouchable;
    hide KeySet.Sound;
  }

  /** What one upsertCopy does to cluster c: its key holds what Placed says, or on an error
      perhaps still what it held, and nothing else changes. */
  ghost predicate Upserted(ks: KeySet, sk: Key, src: Obj, ns: string, oc: string, c: Cluster,
                           a: Snap, b: Snap, act: Action, err: bool) {
    var k, had := Key(ns, sk.name), Holds(a.stores, c, Key(ns, sk.name));
    && Confined(a, b, c) && b.lag == a.lag
    && b.faults == a.faults + (if err then multiset{c} else multiset{})
    && OnlyAt(a.stores, b.stores, c, k, Holds(b.stores, c, k))
    && (Holds(b.stores, c, k) == Placed(ks, sk, src, had, oc) || (err && Holds(b.stores, c, k) == had))
    && b.unseen <= a.unseen + {(c, k)}
    && if err then act == ActionNone
       else
         && act == ActionOf(Judge(ks, sk, src, had, oc))
         && b.touched == a.touched + if Judge(ks, sk, src, had, oc).Writes() then {(c, k)} else {}
  }

  lemma NotSent(ks: KeySet, sk: Key, src: Obj, ns: string, oc: string, c: Cluster, a: Snap, err: bool)
    requires var had := Holds(a.stores, c, Key(ns, sk.name));
             err || (had.Some? && ActionOf(Judge(ks, sk, src, had, oc)) == ActionNone)
    ensures Upserted(ks, sk, src, ns, oc, c, a, a.(faults := a.faults + if err then multiset{c} else multiset{}),
                     ActionNone, err)
  {
  }

  lemma Sent(ks: KeySet, sk: Key, src: Obj, ns: string, oc: string, c: Cluster, a: Snap, b: Snap, o: Obj, err: bool)
    requires var k, had := Key(ns, sk.name), Holds(a.stores, c, Key(ns, sk.name));
             && Judge(ks, sk, src, had, oc).Writes() && Placed(ks, sk, src, had, oc) == Some(o)
             && OnlyAt(a.stores, b.stores, c, k, Holds(b.stores, c, k))
             && (Holds(b.stores, c, k) == Some(o) || (err && Holds(b.stores, c, k) == had))
             && b.lag == a.lag && b.touched == a.touched + {(c, k)} && b.unseen == a.unseen + {(c, k)}
    requires b.faults == a.faults + if err then multiset{c} else multiset{}
    ensures Upserted(ks, sk, src, ns, oc, c, a, b,
                     if err then ActionNone else ActionOf(Judge(ks, sk, src, Holds(a.stores, c, Key(ns, sk.name)), oc)), err)
  {
    hide Judge;
    hide Placed;
    hide Verdict.Writes;
  }

  // ------------------------------------------------------- deleteCopies, as a whole

  /** What one deleteCopies does to cluster c. Every key is as before or deleted, at most
      one per namespace. A call that succeeds, and sees all of them, deletes exactly the copies
      of sk outside keep, and with an up-to-date cache n is their number. */
  ghost predicate Pruned(ks: KeySet, sk: Key, keep: set<string>, oc: string, c: Cluster,
                         a: Snap, b: Snap, n: nat, err: bool) {
    var g := Job(ks, sk, keep, oc, StoreOf(a.stores, c), StoreOf(a.lag, c), UnseenOn(a, c));
    && Confined(a, b, c) && b.unseen == a.unseen
    && b.faults == a.faults + (if err then multiset{c} else multiset{})
    && (forall k :: Holds(b.stores, c, k) == Holds(a.stores, c, k)
                    || Holds(b.stores, c, k) == SweptAt(ks, sk, keep, oc, k, Holds(a.stores, c, k)))
    && (forall j: Key, k: Key :: j != k && j.ns == k.ns ==>
          Holds(b.stores, c, j) == Holds(a.stores, c, j) || Holds(b.stores, c, k) == Holds(a.stores, c, k))
    && (!err && Observed(ks, sk, keep, oc, c, a) ==>
          && (forall k :: Holds(b.stores, c, k) == SweptAt(ks, sk, keep, oc, k, Holds(a.stores, c, k)))
          && (g.lag == map[] ==> n == |g.Doomed()| && b.touched == a.touched + OnCluster(c, g.Doomed())))
  }

  lemma PrunedPartly(g: Job, c: Cluster, a: Snap, b: Snap, seen: set<string>, called: set<Key>, n: nat)
    requires g.live == StoreOf(a.stores, c) && g.lag == StoreOf(a.lag, c) && Confined(a, b, c)
    requires g.SoFar(StoreOf(b.stores, c), StoreOf(b.lag, c), seen, called)
    requires g.blind == UnseenOn(a, c) && b.unseen == a.unseen
    requires b.faults == a.faults + multiset{c}
    ensures Pruned(g.ks, g.sk, g.keep, g.oc, c, a, b, n, true)
  {
    hide Job.SoFar;
    hide SweptAt;
    hide Tidy;
    hide Confined;
    PartSweep(g, StoreOf(b.stores, c), StoreOf(b.lag, c), seen, called);
    OnePerNamespace(g, StoreOf(b.stores, c), StoreOf(b.lag, c), seen, called);
  }

  lemma PrunedFully(g: Job, c: Cluster, a: Snap, b: Snap, seen: set<string>, called: set<Key>)
    requires g.live == StoreOf(a.stores, c) && g.lag == StoreOf(a.lag, c) && Confined(a, b, c)
    requires g.SoFar(StoreOf(b.stores, c), StoreOf(b.lag, c), seen, called) && g.SeenIsDone(seen, called)
    requires g.ListedUnder(|g.ks.Each()|, seen)
    requires g.blind == UnseenOn(a, c) && b.unseen == a.unseen
    requires b.faults == a.faults && b.touched == a.touched + OnCluster(c, called)
    ensures Pruned(g.ks, g.sk, g.keep, g.oc, c, a, b, |called|, false)
  {
    hide Job.SoFar;
    hide Job.SeenIsDone;
    hide Job.ListedUnder;
    hide SweptAt;
    hide Tidy;
    hide Confined;
    hide OnCluster;
    PartSweep(g, StoreOf(b.stores, c), StoreOf(b.lag, c), seen, called);
    OnePerNamespace(g, StoreOf(b.stores, c), StoreOf(b.lag, c), seen, called);
    if Observed(g.ks, g.sk, g.keep, g.oc, c, a) {
      FullSweep(g, StoreOf(b.stores, c), StoreOf(b.lag, c), seen, called);
    }
  }

  // ------------------------------------------------- one cluster's share of a pass

  /** upsertCopy has been called for every namespace in done; failed: one of the calls failed. */
  ghost predicate Filling(ks: KeySet, sk: Key, src: Obj, done: set<string>, oc: string, c: Cluster,
                          a: Snap, b: Snap, failed: bool) {
    && Confined(a, b, c) && b.lag == a.lag
    && (failed <==> b.faults[c] > a.faults[c])
    && (forall k :: Holds(b.stores, c, k) == Holds(a.stores, c, k)
                    || (IsTarget(sk, done, k) && Holds(b.stores, c, k) == Placed(ks, sk, src, Holds(a.stores, c, k), oc)))
    && (forall k :: (c, k) in b.unseen ==> (c, k) in a.unseen || IsTarget(sk, done, k))
    && (!failed ==>
          && (forall k :: IsTarget(sk, done, k) ==> Holds(b.stores, c, k) == Placed(ks, sk, src, Holds(a.stores, c, k), oc))
          && (forall k :: (c, k) in b.touched <==>
                (c, k) in a.touched || (IsTarget(sk, done, k) && Judge(ks, sk, src, Holds(a.stores, c, k), oc).Writes())))
  }

  lemma FillStarts(ks: KeySet, sk: Key, src: Obj, oc: string, c: Cluster, a: Snap)
    ensures Filling(ks, sk, src, {}, oc, c, a, a, false)
  {
  }

  lemma FillStep(ks: KeySet, sk: Key, src: Obj, done: set<string>, oc: string, c: Cluster,
                 a: Snap, b: Snap, z: Snap, ns: string, act: Action, failed: bool, err: bool)
    requires Filling(ks, sk, src, done, oc, c, a, b, failed) && ns !in done
    requires Upserted(ks, sk, src, ns, oc, c, b, z, act, err)
    ensures Filling(ks, sk, src, done + {ns}, oc, c, a, z, failed || err)
  {
    hide Placed;
    hide Judge;
    hide Verdict.Writes;
    hide Confined;
    FilledFaults(ks, sk, src, done, oc, c, a, b, failed);
    ConfinedJoins(a, b, z, c);
    FaultsGrow(b, z, c, err);
    forall k
      ensures Holds(z.stores, c, k) == Holds(a.stores, c, k)
        || (IsTarget(sk, done + {ns}, k) && Holds(z.stores, c, k) == Placed(ks, sk, src, Holds(a.stores, c, k), oc))
    {
      assert At(StoreOf(z.stores, c), k) == At(StoreOf(b.stores, c), k) || k == Key(ns, sk.name);
    }
  }

  lemma FaultsGrow(a: Snap, b: Snap, c: Cluster, err: bool)
    requires b.faults == a.faults + if err then multiset{c} else multiset{}
    ensures b.faults[c] == a.faults[c] + if err then 1 else 0
  {
  }

  /** One cluster's share of a pass, whatever the other clusters did. Without a new fault, and
      with all that has to go observed, the cluster ends as Synced, written to exactly where
      SyncWrites says; otherwise every key is still as before the pass or as after a full one. */
  ghost predicate ClusterDone(ks: KeySet, sk: Key, src: Obj, targets: set<string>, oc: string, c: Cluster,
                              a: Snap, b: Snap) {
    && PartlySynced(ks, sk, src, targets, oc, StoreOf(a.stores, c), StoreOf(b.stores, c))
    && (b.faults[c] == a.faults[c] && Observed(ks, sk, targets, oc, c, a) ==>
          && Synced(ks, sk, src, targets, oc, StoreOf(a.stores, c), StoreOf(b.stores, c))
          && (StoreOf(a.lag, c) == map[] ==> forall k :: (c, k) in b.touched <==>
                (c, k) in a.touched || SyncWrites(ks, sk, src, targets, oc, k, Holds(a.stores, c, k))))
  }

  lemma FilledStaysObserved(ks: KeySet, sk: Key, src: Obj, done: set<string>, oc: string, c: Cluster, a: Snap, b: Snap)
    requires Filling(ks, sk, src, done, oc, c, a, b, false)
    requires Observed(ks, sk, done, oc, c, a)
    ensures Observed(ks, sk, done, oc, c, b)
  {
    hide Placed;
    hide Judge;
    hide Stamped;
    hide Foreign;
    hide Confined;
    forall k | k in StoreOf(b.stores, c) && Stamped(ks, sk, StoreOf(b.stores, c)[k]) ensures k.name == sk.name {
      assert Holds(b.stores, c, k) == Holds(a.stores, c, k) || IsTarget(sk, done, k);
    }
    forall k | (c, k) in b.unseen ensures !SweptAway(ks, sk, done, oc, k, Holds(b.stores, c, k)) {
      assert Holds(b.stores, c, k) == Holds(a.stores, c, k) || IsTarget(sk, done, k);
    }
  }

  /** A key a full prune keeps or drops, after a full fill. */
  lemma FilledThenPrunedAt(ks: KeySet, sk: Key, src: Obj, targets: set<string>, oc: string, k: Key,
                           h0: Option<Obj>, h1: Option<Obj>, h2: Option<Obj>)
    requires h1 == if IsTarget(sk, targets, k) then Placed(ks, sk, src, h0, oc) else h0
    requires h2 == SweptAt(ks, sk, targets, oc, k, h1)
    ensures h2 == SyncedAt(ks, sk, src, targets, oc, k, h0)
  {
    hide Placed;
  }

  lemma FilledThenPruned(ks: KeySet, sk: Key, src: Obj, targets: set<string>, oc: string, c: Cluster,
                         a: Snap, b: Snap, z: Snap, n: nat, failed: bool, err: bool)
    requires Filling(ks, sk, src, targets, oc, c, a, b, failed)
    requires Pruned(ks, sk, targets, oc, c, b, z, n, err)
    ensures Confined(a, z, c) && ClusterDone(ks, sk, src, targets, oc, c, a, z)
    ensures failed || err <==> z.faults[c] > a.faults[c]
  {
    hide Placed;
    hide Judge;
    hide SweptAt;
    hide Observed;
    hide Confined;
    hide PartlySynced;
    hide Synced;
    hide Filling;
    hide SyncWrites;
    FilledFaults(ks, sk, src, targets, oc, c, a, b, failed);
    ConfinedJoins(a, b, z, c);
    FaultsGrow(b, z, c, err);
    PartPart(ks, sk, src, targets, oc, c, a, b, z, n, failed, err);
    if z.faults[c] == a.faults[c] && Observed(ks, sk, targets, oc, c, a) {
      FullFull(ks, sk, src, targets, oc, c, a, b, z, n);
    }
  }

  lemma FilledFaults(ks: KeySet, sk: Key, src: Obj, targets: set<string>, oc: string, c: Cluster,
                     a: Snap, b: Snap, failed: bool)
    requires Filling(ks, sk, src, targets, oc, c, a, b, failed)
    ensures Confined(a, b, c) && (failed <==> b.faults[c] > a.faults[c]) && b.faults[c] >= a.faults[c]
  {
  }

  lemma PartPart(ks: KeySet, sk: Key, src: Obj, targets: set<string>, oc: string, c: Cluster,
                 a: Snap, b: Snap, z: Snap, n: nat, failed: bool, err: bool)
    requires Filling(ks, sk, src, targets, oc, c, a, b, failed)
    requires Pruned(ks, sk, targets, oc, c, b, z, n, err)
    ensures PartlySynced(ks, sk, src, targets, oc, StoreOf(a.stores, c), StoreOf(z.stores, c))
  {
    hide Placed;
    hide Judge;
    hide Observed;
    hide Confined;
    hide Doomed;
    forall k: Key
      ensures Holds(z.stores, c, k) == Holds(a.stores, c, k)
        || Holds(z.stores, c, k) == SyncedAt(ks, sk, src, targets, oc, k, Holds(a.stores, c, k))
    {
      assert Holds(b.stores, c, k) == Holds(a.stores, c, k) || IsTarget(sk, targets, k);
    }
  }

  lemma FullFull(ks: KeySet, sk: Key, src: Obj, targets: set<string>, oc: string, c: Cluster,
                 a: Snap, b: Snap, z: Snap, n: nat)
    requires Filling(ks, sk, src, targets, oc, c, a, b, false)
    requires Pruned(ks, sk, targets, oc, c, b, z, n, false)
    requires Observed(ks, sk, targets, oc, c, a)
    ensures Synced(ks, sk, src, targets, oc, StoreOf(a.stores, c), StoreOf(z.stores, c))
    ensures StoreOf(a.lag, c) == map[] ==> forall k :: (c, k) in z.touched <==>
              (c, k) in a.touched || SyncWrites(ks, sk, src, targets, oc, k, Holds(a.stores, c, k))
  {
    hide Placed;
    hide Judge;
    hide Observed;
    hide Confined;
    hide Doomed;
    FilledStaysObserved(ks, sk, src, targets, oc, c, a, b);
    forall k: Key
      ensures Holds(z.stores, c, k) == SyncedAt(ks, sk, src, targets, oc, k, Holds(a.stores, c, k))
    {
      FilledThenPrunedAt(ks, sk, src, targets, oc, k, Holds(a.stores, c, k), Holds(b.stores, c, k), Holds(z.stores, c, k));
    }
  }

  /** A failure while filling stops the local pass there. */
  lemma FillingOnly(ks: KeySet, sk: Key, src: Obj, targets: set<string>, oc: string, c: Cluster, a: Snap, b: Snap)
    requires Filling(ks, sk, src, targets, oc, c, a, b, true)
    ensures Confined(a, b, c) && ClusterDone(ks, sk, src, targets, oc, c, a, b) && b.faults[c] > a.faults[c]
  {
    hide Placed;
    hide Judge;
    hide Observed;
    hide Confined;
    forall k: Key
      ensures Holds(b.stores, c, k) == Holds(a.stores, c, k)
        || Holds(b.stores, c, k) == SyncedAt(ks, sk, src, targets, oc, k, Holds(a.stores, c, k))
    {
    }
  }

  lemma FillingMore(ks: KeySet, sk: Key, src: Obj, done: set<string>, targets: set<string>, oc: string, c: Cluster,
                    a: Snap, b: Snap)
    requires Filling(ks, sk, src, done, oc, c, a, b, true) && done <= targets
    ensures Filling(ks, sk, src, targets, oc, c, a, b, true)
  {
    hide Placed;
    hide Judge;
    hide Confined;
  }

  // ------------------------------------------------------------- many clusters

  /** Cluster c was not called. */
  ghost predicate Alone(a: Snap, b: Snap, c: Cluster) {
    && StoreOf(b.stores, c) == StoreOf(a.stores, c) && StoreOf(b.lag, c) == StoreOf(a.lag, c)
    && b.faults[c] == a.faults[c]
    && (forall k :: (c, k) in b.touched <==> (c, k) in a.touched)
    && (forall k :: (c, k) in b.unseen <==> (c, k) in a.unseen)
  }

  lemma ConfinedLeavesAlone(a: Snap, b: Snap, d: Cluster, c: Cluster)
    requires Confined(a, b, d) && c != d
    ensures Alone(a, b, c)
  {
  }

  lemma AloneJoins(a: Snap, b: Snap, z: Snap, c: Cluster)
    requires Alone(a, b, c) && Alone(b, z, c)
    ensures Alone(a, z, c)
  {
  }

  lemma AloneObserves(ks: KeySet, sk: Key, keep: set<string>, oc: string, c: Cluster, a: Snap, b: Snap)
    requires Alone(a, b, c)
    ensures Observed(ks, sk, keep, oc, c, a) <==> Observed(ks, sk, keep, oc, c, b)
  {
    hide Tidy;
    hide SweptAway;
  }

  /** What others do before and after does not change a cluster's share. */
  lemma ShareIsLocal(ks: KeySet, sk: Key, src: Obj, targets: set<string>, oc: string, c: Cluster,
                     a: Snap, b: Snap, y: Snap, z: Snap)
    requires Alone(a, b, c) && ClusterDone(ks, sk, src, targets, oc, c, b, y) && Alone(y, z, c)
    ensures ClusterDone(ks, sk, src, targets, oc, c, a, z)
  {
    AloneObserves(ks, sk, targets, oc, c, a, b);
    hide Observed;
    hide PartlySynced;
    hide Synced;
    hide SyncWrites;
  }

  /** The namespaces the annotation text asks for on spoke id; None asks for nothing. */
  function Wanted(sk: Key, csv: Option<string>, id: string): set<string> {
    if csv.None? then {} else TargetClusters.Dests(sk.ns, csv.value, id)
  }

  /** The first i of the spokes ids have had their share, and nobody else was called. */
  ghost predicate FanningOut(cfg: Config, sk: Key, src: Obj, clients: map<string, Cluster>, csv: Option<string>,
                             ids: seq<string>, i: nat, a: Snap, b: Snap)
    requires i <= |ids| && forall id :: id in ids ==> id in clients
  {
    && (Separate(cfg, Some(clients)) ==> forall j :: 0 <= j < i ==>
          ClusterDone(cfg.ks, sk, src, Wanted(sk, csv, ids[j]), cfg.hubUid, clients[ids[j]], a, b))
    && (forall c :: (forall j :: 0 <= j < i ==> clients[ids[j]] != c) ==> Alone(a, b, c))
  }

  lemma FanStarts(cfg: Config, sk: Key, src: Obj, clients: map<string, Cluster>, csv: Option<string>,
                  ids: seq<string>, a: Snap)
    requires forall id :: id in ids ==> id in clients
    ensures FanningOut(cfg, sk, src, clients, csv, ids, 0, a, a)
  {
  }

  lemma FanStep(cfg: Config, sk: Key, src: Obj, clients: map<string, Cluster>, csv: Option<string>,
                ids: seq<string>, i: nat, a: Snap, b: Snap, z: Snap)
    requires i < |ids| && forall id :: id in ids ==> id in clients
    requires forall j, k :: 0 <= j < k < |ids| ==> ids[j] != ids[k]
    requires FanningOut(cfg, sk, src, clients, csv, ids, i, a, b)
    requires Confined(b, z, clients[ids[i]])
    requires ClusterDone(cfg.ks, sk, src, Wanted(sk, csv, ids[i]), cfg.hubUid, clients[ids[i]], b, z)
    ensures FanningOut(cfg, sk, src, clients, csv, ids, i + 1, a, z)
  {
    hide ClusterDone;
    hide Alone;
    hide Confined;
    hide Wanted;
    var here := clients[ids[i]];
    AloneHere(z, here);
    AloneHere(a, here);
    if Separate(cfg, Some(clients)) {
      forall j | 0 <= j < i + 1
        ensures ClusterDone(cfg.ks, sk, src, Wanted(sk, csv, ids[j]), cfg.hubUid, clients[ids[j]], a, z)
      {
        var c := clients[ids[j]];
        AloneHere(a, c);
        if j < i {
          ConfinedLeavesAlone(b, z, here, c);
          ShareIsLocal(cfg.ks, sk, src, Wanted(sk, csv, ids[j]), cfg.hubUid, c, a, a, b, z);
        } else {
          ShareIsLocal(cfg.ks, sk, src, Wanted(sk, csv, ids[j]), cfg.hubUid, c, a, b, z, z);
        }
      }
    }
    forall c | forall j :: 0 <= j < i + 1 ==> clients[ids[j]] != c ensures Alone(a, z, c) {
      ConfinedLeavesAlone(b, z, here, c);
      AloneJoins(a, b, z, c);
    }
  }

  lemma AloneHere(a: Snap, c: Cluster)
    ensures Alone(a, a, c)
  {
  }

  /** All spokes have had their share. With distinct ids on distinct clusters each spoke's
      outcome depends on its own store and its own failures alone. */
  ghost predicate FannedOut(cfg: Config, sk: Key, src: Obj, clients: map<string, Cluster>, csv: Option<string>,
                            a: Snap, b: Snap) {
    && (Separate(cfg, Some(clients)) ==> forall id :: id in clients ==>
          ClusterDone(cfg.ks, sk, src, Wanted(sk, csv, id), cfg.hubUid, clients[id], a, b))
    && (forall c :: c !in clients.Values ==> Alone(a, b, c))
  }

  lemma FanEnds(cfg: Config, sk: Key, src: Obj, clients: map<string, Cluster>, csv: Option<string>,
                ids: seq<string>, a: Snap, b: Snap)
    requires forall id :: id in ids <==> id in clients
    requires FanningOut(cfg, sk, src, clients, csv, ids, |ids|, a, b)
    ensures FannedOut(cfg, sk, src, clients, csv, a, b)
  {
    hide ClusterDone;
    hide Alone;
    hide Wanted;
    if Separate(cfg, Some(clients)) {
      forall id | id in clients
        ensures ClusterDone(cfg.ks, sk, src, Wanted(sk, csv, id), cfg.hubUid, clients[id], a, b)
      {
        var j :| 0 <= j < |ids| && ids[j] == id;
      }
    }
    forall c | c !in clients.Values ensures Alone(a, b, c) {
      assert forall j :: 0 <= j < |ids| ==> ids[j] in clients && clients[ids[j]] in clients.Values;
    }
  }

  /** failed says whether any call has failed. */
  ghost predicate Grew(a: Snap, b: Snap, failed: bool) {
    && (forall c :: b.faults[c] >= a.faults[c])
    && (failed <==> exists c :: b.faults[c] > a.faults[c])
  }

  lemma GrewStep(a: Snap, b: Snap, z: Snap, c: Cluster, failed: bool, err: bool)
    requires Grew(a, b, failed) && Confined(b, z, c)
    requires err <==> z.faults[c] > b.faults[c]
    ensures Grew(a, z, failed || err)
  {
    forall d ensures z.faults[d] >= b.faults[d] && (d != c ==> z.faults[d] == b.faults[d]) {}
    if failed {
      var d :| b.faults[d] > a.faults[d];
      assert z.faults[d] > a.faults[d];
    }
  }

  lemma GrewStarts(a: Snap)
    ensures Grew(a, a, false)
  {
  }

  /** The namespaces could not be listed: nothing was written. */
  lemma NotListed(ks: KeySet, sk: Key, src: Obj, targets: set<string>, oc: string, c: Cluster, a: Snap, b: Snap)
    requires b == a.(faults := a.faults + multiset{c})
    ensures ClusterDone(ks, sk, src, targets, oc, c, a, b) && b.faults[c] > a.faults[c]
  {
    hide Observed;
    hide SyncedAt;
  }
}
