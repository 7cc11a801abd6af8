/** The state machine and the Syncer are the same controller: a worker left alone, with every
    call succeeding, takes the hub from any reachable state to exactly what PassAt says. */
module Uninterrupted {
  import opened Objects
  import opened KeySets
  import opened Copies
  import opened Reconciling
  import opened Controller
  import opened Safety

  /** A move of sk's worker whose call succeeds and whose read is up to date. */
  predicate AllOk(cfg: Config, s: State, m: Move, sk: Key) {
    && ByWorker(m) && m.sk == sk && InPhase(cfg, s, m)
    && (match m
        case Start(_, seen) => seen == CellAt(s, sk)
        case Fix(_, reply) => reply == Ok
        case ListNamespaces(_, nss, reply) => reply == Ok && nss == s.namespaces
        case Look(_, ns, seen, reply) => reply == Ok && seen == CellAt(s, CopyKey(sk, ns))
        case Write(_, reply) => reply == Ok
        case ListCopies(_, items, reply) => reply == Ok && items == ListedUnder(cfg.ks, s, sk, s.working[sk].listed)
        case Sweep(_, _, reply) => reply == Ok
        case Release(_, reply) => reply == Ok
        case _ => true)
  }

  /** What key k holds once the namespaces in done have been filled. */
  function FilledAt(ks: KeySet, sk: Key, o: Obj, done: set<string>, k: Key, had: Option<Obj>): Option<Obj> {
    if IsTarget(sk, done, k) then Placed(ks, sk, o, had, "") else had
  }

  /** What it holds once, besides, the namespaces in seen have been swept. */
  function PrunedAt(ks: KeySet, sk: Key, o: Obj, targets: set<string>, seen: set<string>, k: Key, had: Option<Obj>): Option<Obj> {
    if IsTarget(sk, targets, k) then Placed(ks, sk, o, had, "")
    else if k.ns in seen then SweptAt(ks, sk, targets, "", k, had)
    else had
  }

  ghost predicate FilledTo(ks: KeySet, s0: State, s: State, sk: Key, o: Obj, done: set<string>) {
    forall k :: ObjAt(s, k) == FilledAt(ks, sk, o, done, k, ObjAt(s0, k))
  }

  ghost predicate PrunedTo(ks: KeySet, s0: State, s: State, sk: Key, o: Obj, targets: set<string>, seen: set<string>) {
    forall k :: ObjAt(s, k) == PrunedAt(ks, sk, o, targets, seen, k, ObjAt(s0, k))
  }

  /** The targets are filled, what is in seen is swept, and the items are copies of sk. */
  ghost predicate Pruning(cfg: Config, s0: State, s: State, sk: Key, o: Obj, ver: nat, keep: Option<set<string>>,
                          seen: set<string>, items: set<Key>) {
    && sk in s0.store
    && (forall k :: k in items ==> CopyAt(cfg.ks, s, k, sk) && k.name == sk.name)
    && PrunedTo(cfg.ks, s0, s, sk, o, if keep.Some? then keep.value else {}, seen)
    && (match keep
        case Some(targets) =>
          && BranchOf(cfg, Some(o)).Replicate?
          && targets == Targets(cfg, s0.namespaces, sk, BranchOf(cfg, Some(o)).sel)
        case None =>
          && BranchOf(cfg, Some(o)).CleanUp?
          && CellAt(s, sk) == Some(s0.store[sk]) && ver == s0.store[sk].ver)
  }

  /** How far a worker that started from s0 has come, by its phase. */
  ghost predicate Progress(cfg: Config, s0: State, s: State, sk: Key, p: Phase) {
    && s.namespaces == s0.namespaces
    && sk in s0.store && p.obj == s0.store[sk].obj
    && var branch := BranchOf(cfg, Some(p.obj));
    match p
    case Fixing(o, ver) => branch.FixFinalizers? && s.store == s0.store && ver == s0.store[sk].ver
    case Listing(o) => branch.Replicate? && s.store == s0.store
    case Placing(o, targets, todo) =>
      && branch.Replicate? && targets == Targets(cfg, s0.namespaces, sk, branch.sel) && todo <= targets
      && FilledTo(cfg.ks, s0, s, sk, o, targets - todo)
    case Writing(o, targets, todo, ns, got) =>
      && branch.Replicate? && targets == Targets(cfg, s0.namespaces, sk, branch.sel)
      && todo <= targets && ns in targets && ns !in todo
      && FilledTo(cfg.ks, s0, s, sk, o, targets - todo - {ns})
      && got == CellAt(s, CopyKey(sk, ns)) && Judge(cfg.ks, sk, o, ObjAt(s, CopyKey(sk, ns)), "").Writes()
    case Sweeping(o, ver, keep, _, seen, items) => Pruning(cfg, s0, s, sk, o, ver, keep, seen, items)
    case Releasing(o, ver) =>
      && branch.CleanUp? && (forall k :: ObjAt(s, k) == SweptAt(cfg.ks, sk, {}, "", k, ObjAt(s0, k)))
      && CellAt(s, sk) == Some(s0.store[sk]) && ver == s0.store[sk].ver
  }

  /** The whole pass, as the meaning has it. */
  ghost predicate PassDone(cfg: Config, s0: State, s: State, sk: Key) {
    forall k :: ObjAt(s, k) == PassAt(cfg, s0.namespaces, None, sk, ObjAt(s0, sk), cfg.hub, k, ObjAt(s0, k))
  }

  lemma StartProgress(cfg: Config, s: State, m: Move)
    requires m.Start? && AllOk(cfg, s, m, m.sk)
    ensures !NextOf(cfg, s, m).Retry?
    ensures NextOf(cfg, s, m).Go? ==> Progress(cfg, s, s, m.sk, NextOf(cfg, s, m).phase)
    ensures NextOf(cfg, s, m).Rest? ==> PassDone(cfg, s, s, m.sk)
  {
    if NextOf(cfg, s, m).Go? && BranchOf(cfg, ObjAt(s, m.sk)).CleanUp? {
      assert PrunedTo(cfg.ks, s, s, m.sk, s.store[m.sk].obj, {}, {});
    }
  }

  lemma FixProgress(cfg: Config, s0: State, s: State, m: Move)
    requires m.Fix? && AllOk(cfg, s, m, m.sk) && Progress(cfg, s0, s, m.sk, s.working[m.sk])
    ensures NextOf(cfg, s, m).Rest? && PassDone(cfg, s0, Effect(cfg, s, m), m.sk)
  {
    var o := s.working[m.sk].obj;
    FixBranch(cfg, s0.namespaces, None, m.sk, o, cfg.hub);
    assert Live(Migrated(cfg, o)) == Some(Migrated(cfg, o));
    hide BranchAt;
  }

  lemma ListProgress(cfg: Config, s0: State, s: State, m: Move)
    requires m.ListNamespaces? && AllOk(cfg, s, m, m.sk) && Progress(cfg, s0, s, m.sk, s.working[m.sk])
    ensures NextOf(cfg, s, m).Go? && Progress(cfg, s0, s, m.sk, NextOf(cfg, s, m).phase)
  {
    hide Targets;
    var targets := NextOf(cfg, s, m).phase.targets;
    assert targets - targets == {};
  }

  lemma UnwrittenIsPlaced(ks: KeySet, sk: Key, src: Obj, had: Option<Obj>)
    requires !Judge(ks, sk, src, had, "").Writes()
    ensures Placed(ks, sk, src, had, "") == had
  {
  }

  /** Filling one more namespace. */
  lemma FilledOneMore(ks: KeySet, s0: State, s: State, t: State, sk: Key, o: Obj, done: set<string>, ns: string)
    requires FilledTo(ks, s0, s, sk, o, done) && ns !in done
    requires forall j :: ObjAt(t, j) == if j == CopyKey(sk, ns) then Placed(ks, sk, o, ObjAt(s, j), "") else ObjAt(s, j)
    ensures FilledTo(ks, s0, t, sk, o, done + {ns})
  {
    hide Placed;
    forall k ensures ObjAt(t, k) == FilledAt(ks, sk, o, done + {ns}, k, ObjAt(s0, k)) {
      assert ObjAt(s, k) == FilledAt(ks, sk, o, done, k, ObjAt(s0, k));
    }
  }

  lemma LookNext(cfg: Config, s: State, m: Move)
    requires m.Look? && AllOk(cfg, s, m, m.sk)
    ensures var p, k := s.working[m.sk], CopyKey(m.sk, m.ns);
            NextOf(cfg, s, m) ==
              if Judge(cfg.ks, m.sk, p.obj, ObjAt(s, k), "").Writes()
              then Go(Writing(p.obj, p.targets, p.todo - {m.ns}, m.ns, CellAt(s, k)))
              else Go(Placing(p.obj, p.targets, p.todo - {m.ns}))
  {
    hide Judge;
  }

  lemma LookProgress(cfg: Config, s0: State, s: State, m: Move)
    requires m.Look? && AllOk(cfg, s, m, m.sk) && Progress(cfg, s0, s, m.sk, s.working[m.sk])
    ensures NextOf(cfg, s, m).Go? && Progress(cfg, s0, s, m.sk, NextOf(cfg, s, m).phase)
  {
    hide Judge;
    hide Placed;
    hide BranchOf;
    hide FilledTo;
    hide Targets;
    var p, k := s.working[m.sk], CopyKey(m.sk, m.ns);
    LookNext(cfg, s, m);
    hide NextOf;
    hide ObjAt;
    hide CellAt;
    if Judge(cfg.ks, m.sk, p.obj, ObjAt(s, k), "").Writes() {
      assert p.targets - (p.todo - {m.ns}) - {m.ns} == p.targets - p.todo;
    } else {
      UnwrittenIsPlaced(cfg.ks, m.sk, p.obj, ObjAt(s, k));
      FilledOneMore(cfg.ks, s0, s, s, m.sk, p.obj, p.targets - p.todo, m.ns);
      assert p.targets - (p.todo - {m.ns}) == p.targets - p.todo + {m.ns};
    }
  }

  lemma WrittenIsPlaced(ks: KeySet, sk: Key, src: Obj, had: Option<Obj>)
    requires Judge(ks, sk, src, had, "").Writes() && (had.Some? ==> Live(had.value).Some?)
    ensures var o := if had.None? then FreshCopy(ks, sk, src, "") else Mirror(ks, sk, src, had.value, "");
            Placed(ks, sk, src, had, "") == Some(o) && Live(o) == Some(o)
  {
  }

  lemma WriteLands(cfg: Config, s: State, m: Move)
    requires StoreOk(cfg.ks, s) && m.Write? && AllOk(cfg, s, m, m.sk)
    requires s.working[m.sk].got == CellAt(s, CopyKey(m.sk, s.working[m.sk].ns))
    requires Judge(cfg.ks, m.sk, s.working[m.sk].obj, ObjAt(s, CopyKey(m.sk, s.working[m.sk].ns)), "").Writes()
    ensures var p := s.working[m.sk];
            var k := CopyKey(m.sk, p.ns);
            && NextOf(cfg, s, m) == Go(Placing(p.obj, p.targets, p.todo))
            && (forall j :: ObjAt(Effect(cfg, s, m), j) ==
                  if j == k then Placed(cfg.ks, m.sk, p.obj, ObjAt(s, k), "") else ObjAt(s, j))
            && Effect(cfg, s, m).namespaces == s.namespaces
  {
    var p := s.working[m.sk];
    var k := CopyKey(m.sk, p.ns);
    if k in s.store {
      StoredOk(cfg.ks, s, k);
    }
    WrittenIsPlaced(cfg.ks, m.sk, p.obj, ObjAt(s, k));
    hide StoreOk;
    hide Judge;
    hide Placed;
    hide Live;
    hide Woken;
  }

  lemma WriteProgress(cfg: Config, s0: State, s: State, m: Move)
    requires StoreOk(cfg.ks, s) && m.Write? && AllOk(cfg, s, m, m.sk)
    requires Progress(cfg, s0, s, m.sk, s.working[m.sk])
    ensures NextOf(cfg, s, m).Go? && Progress(cfg, s0, Effect(cfg, s, m), m.sk, NextOf(cfg, s, m).phase)
  {
    var p := s.working[m.sk];
    WriteLands(cfg, s, m);
    hide StoreOk;
    hide Targets;
    hide BranchOf;
    hide Effect;
    hide NextOf;
    hide Judge;
    hide Placed;
    hide FilledTo;
    FilledOneMore(cfg.ks, s0, s, Effect(cfg, s, m), m.sk, p.obj, p.targets - p.todo - {p.ns}, p.ns);
    assert p.targets - p.todo == p.targets - p.todo - {p.ns} + {p.ns};
  }

  lemma EndPlacingProgress(cfg: Config, s0: State, s: State, m: Move)
    requires m.EndPlacing? && InPhase(cfg, s, m) && Progress(cfg, s0, s, m.sk, s.working[m.sk])
    ensures NextOf(cfg, s, m).Go? && Progress(cfg, s0, s, m.sk, NextOf(cfg, s, m).phase)
  {
    var p := s.working[m.sk];
    hide Targets;
    hide BranchOf;
    hide Placed;
    assert p.targets - {} == p.targets;
    assert PrunedTo(cfg.ks, s0, s, m.sk, p.obj, p.targets, {});
  }

  lemma ListedAreCopies(cfg: Config, s: State, sk: Key, i: nat, k: Key)
    requires StoreOk(cfg.ks, s) && sk.ns != "" && sk.name != "" && i < |cfg.ks.Each()| && k in ListedUnder(cfg.ks, s, sk, i)
    ensures CopyAt(cfg.ks, s, k, sk) && k.name == sk.name
  {
    StoredOk(cfg.ks, s, k);
    StampedIsNamed(cfg.ks, sk, i, k, s.store[k].obj);
    OwnerReadingsAgree(cfg.ks, s.store[k].obj, sk);
    assert Managed(cfg.ks.Each()[i], s.store[k].obj.labels);
  }

  lemma ListCopiesProgress(cfg: Config, s0: State, s: State, m: Move)
    requires m.ListCopies? && AllOk(cfg, s, m, m.sk)
    requires StoreOk(cfg.ks, s) && m.sk.ns != "" && m.sk.name != "" && Progress(cfg, s0, s, m.sk, s.working[m.sk])
    ensures NextOf(cfg, s, m).Go? && Progress(cfg, s0, s, m.sk, NextOf(cfg, s, m).phase)
  {
    var p := s.working[m.sk];
    forall k | k in ListedUnder(cfg.ks, s, m.sk, p.listed) ensures CopyAt(cfg.ks, s, k, m.sk) && k.name == m.sk.name {
      ListedAreCopies(cfg, s, m.sk, p.listed, k);
    }
    hide StoreOk;
    hide PrunedTo;
    hide BranchOf;
    hide Targets;
    hide CopyAt;
  }

  /** A stored copy of sk outside the namespaces kept is to be swept; an object that is no copy
      of sk is not. */
  lemma SweptIffCopy(ks: KeySet, s: State, sk: Key, keep: set<string>, k: Key)
    requires StoreOk(ks, s) && sk.ns != "" && sk.name != ""
    ensures SweptAway(ks, sk, keep, "", k, ObjAt(s, k)) <==> CopyAt(ks, s, k, sk) && k.ns !in keep
    ensures SweptAway(ks, sk, keep, "", k, ObjAt(s, k)) ==> k.name == sk.name
  {
    if k in s.store {
      StoredOk(ks, s, k);
      OwnerReadingsAgree(ks, s.store[k].obj, sk);
    }
  }

  lemma SweepNext(cfg: Config, s: State, m: Move)
    requires m.Sweep? && AllOk(cfg, s, m, m.sk)
    ensures var p := s.working[m.sk];
            && NextOf(cfg, s, m) == Go(p.(seen := p.seen + {m.k.ns}, items := p.items - {m.k}))
            && Written(cfg, s, m) == if Skips(p, m.k) then None else Deleted(s, m.k)
  {
  }

  /** Deleting an object leaves its key as AfterDelete says, whether or not it was marked before. */
  lemma DeleteLands(ks: KeySet, s: State, k: Key)
    requires StoreOk(ks, s) && k in s.store
    ensures var t := if Deleted(s, k).Some? then Put(ks, s, k, Deleted(s, k).value.1) else s;
            && ObjAt(t, k) == AfterDelete(s.store[k].obj)
            && (forall j :: j != k ==> CellAt(t, j) == CellAt(s, j))
            && t.namespaces == s.namespaces
  {
    StoredOk(ks, s, k);
    hide StoreOk;
    hide Woken;
  }

  /** Sweeping one item leaves its key as SweptAt says, and touches no other. */
  lemma SweepLands(cfg: Config, s: State, m: Move)
    requires StoreOk(cfg.ks, s) && m.Sweep? && AllOk(cfg, s, m, m.sk)
    requires m.sk.ns != "" && m.sk.name != "" && CopyAt(cfg.ks, s, m.k, m.sk)
    ensures var p := s.working[m.sk];
            && NextOf(cfg, s, m) == Go(p.(seen := p.seen + {m.k.ns}, items := p.items - {m.k}))
            && (forall j :: j != m.k ==> CellAt(Effect(cfg, s, m), j) == CellAt(s, j))
            && ObjAt(Effect(cfg, s, m), m.k) ==
                 (if m.k.ns in p.seen then ObjAt(s, m.k)
                  else SweptAt(cfg.ks, m.sk, if p.keep.Some? then p.keep.value else {}, "", m.k, ObjAt(s, m.k)))
            && Effect(cfg, s, m).namespaces == s.namespaces
  {
    var p := s.working[m.sk];
    SweepNext(cfg, s, m);
    hide Written;
    hide NextOf;
    SweptIffCopy(cfg.ks, s, m.sk, if p.keep.Some? then p.keep.value else {}, m.k);
    DeleteLands(cfg.ks, s, m.k);
    hide StoreOk;
    hide SweptAway;
    hide Put;
    hide Live;
  }

  /** What sweeping the items of namespace ns means for every key there. */
  lemma SeenOneMore(ks: KeySet, s0: State, s: State, t: State, sk: Key, o: Obj, targets: set<string>, seen: set<string>, k: Key)
    requires StoreOk(ks, s0) && sk.ns != "" && sk.name != "" && k.name == sk.name
    requires PrunedTo(ks, s0, s, sk, o, targets, seen)
    requires forall j :: j != k ==> ObjAt(t, j) == ObjAt(s, j)
    requires ObjAt(t, k) == if k.ns in seen then ObjAt(s, k) else SweptAt(ks, sk, targets, "", k, ObjAt(s, k))
    ensures PrunedTo(ks, s0, t, sk, o, targets, seen + {k.ns})
  {
    hide Placed;
    hide StoreOk;
    forall j ensures ObjAt(t, j) == PrunedAt(ks, sk, o, targets, seen + {k.ns}, j, ObjAt(s0, j)) {
      SweptIffCopy(ks, s0, sk, targets, j);
      hide SweptAway;
      assert ObjAt(s, j) == PrunedAt(ks, sk, o, targets, seen, j, ObjAt(s0, j));
    }
  }

  lemma ItemsStay(ks: KeySet, s: State, t: State, sk: Key, items: set<Key>, k: Key)
    requires forall j :: j in items ==> CopyAt(ks, s, j, sk) && j.name == sk.name
    requires forall j :: j != k ==> CellAt(t, j) == CellAt(s, j)
    ensures forall j :: j in items - {k} ==> CopyAt(ks, t, j, sk) && j.name == sk.name
  {
    SameCells(ks, s, t, sk, k);
    hide CopyAt;
    hide CellAt;
  }

  lemma StillPruning(cfg: Config, s0: State, s: State, t: State, sk: Key, o: Obj, ver: nat, keep: Option<set<string>>,
                     seen: set<string>, items: set<Key>, k: Key)
    requires StoreOk(cfg.ks, s0) && sk.ns != "" && sk.name != "" && k in items && (keep.None? ==> k != sk)
    requires Pruning(cfg, s0, s, sk, o, ver, keep, seen, items)
    requires forall j :: j != k ==> CellAt(t, j) == CellAt(s, j)
    requires ObjAt(t, k) == if k.ns in seen then ObjAt(s, k)
                            else SweptAt(cfg.ks, sk, if keep.Some? then keep.value else {}, "", k, ObjAt(s, k))
    ensures Pruning(cfg, s0, t, sk, o, ver, keep, seen + {k.ns}, items - {k})
  {
    hide StoreOk;
    hide PrunedTo;
    hide SweptAt;
    hide Targets;
    hide BranchOf;
    hide CopyAt;
    hide CellAt;
    hide ObjAt;
    SameObjs(s, t, k);
    ItemsStay(cfg.ks, s, t, sk, items, k);
    SeenOneMore(cfg.ks, s0, s, t, sk, o, if keep.Some? then keep.value else {}, seen, k);
  }

  lemma SameObjs(s: State, t: State, k: Key)
    requires forall j :: j != k ==> CellAt(t, j) == CellAt(s, j)
    ensures forall j :: j != k ==> ObjAt(t, j) == ObjAt(s, j)
  {
    forall j | j != k ensures ObjAt(t, j) == ObjAt(s, j) {
      assert CellAt(t, j) == CellAt(s, j);
    }
  }

  lemma ItemIsCopy(cfg: Config, s0: State, s: State, sk: Key, p: Phase, k: Key)
    requires StoreOk(cfg.ks, s) && sk.ns != "" && sk.name != "" && p.Sweeping? && k in p.items
    requires Progress(cfg, s0, s, sk, p) && !Stamped(cfg.ks, sk, p.obj)
    ensures CopyAt(cfg.ks, s, k, sk) && (p.keep.None? ==> k != sk)
    ensures Pruning(cfg, s0, s, sk, p.obj, p.ver, p.keep, p.seen, p.items) && s.namespaces == s0.namespaces
  {
    SweptIffCopy(cfg.ks, s, sk, {}, sk);
    hide StoreOk;
    hide PrunedTo;
    hide BranchOf;
    hide Targets;
    hide Stamped;
  }

  lemma SweepProgress(cfg: Config, s0: State, s: State, m: Move)
    requires m.Sweep? && AllOk(cfg, s, m, m.sk) && m.sk.ns != "" && m.sk.name != ""
    requires StoreOk(cfg.ks, s0) && StoreOk(cfg.ks, s) && Progress(cfg, s0, s, m.sk, s.working[m.sk])
    requires !Stamped(cfg.ks, m.sk, s.working[m.sk].obj)
    ensures NextOf(cfg, s, m).Go? && Progress(cfg, s0, Effect(cfg, s, m), m.sk, NextOf(cfg, s, m).phase)
  {
    var p := s.working[m.sk];
    hide StoreOk;
    hide Stamped;
    hide CopyAt;
    hide Pruning;
    hide SweptAt;
    hide Effect;
    hide NextOf;
    hide ObjAt;
    hide CellAt;
    ItemIsCopy(cfg, s0, s, m.sk, p, m.k);
    SweepLands(cfg, s, m);
    hide SweptAway;
    StillPruning(cfg, s0, s, Effect(cfg, s, m), m.sk, p.obj, p.ver, p.keep, p.seen, p.items, m.k);
    PruningIsProgress(cfg, s0, s, Effect(cfg, s, m), m.sk, p, p.(seen := p.seen + {m.k.ns}, items := p.items - {m.k}));
    hide Progress;
  }

  lemma PruningIsProgress(cfg: Config, s0: State, s: State, t: State, sk: Key, p: Phase, q: Phase)
    requires p.Sweeping? && q.Sweeping? && q.obj == p.obj && Progress(cfg, s0, s, sk, p) && t.namespaces == s.namespaces
    requires Pruning(cfg, s0, t, sk, q.obj, q.ver, q.keep, q.seen, q.items)
    ensures Progress(cfg, s0, t, sk, q)
  {
    hide Pruning;
    hide BranchOf;
    hide Targets;
  }

  lemma SameCells(ks: KeySet, s: State, t: State, sk: Key, k: Key)
    requires forall j :: j != k ==> CellAt(t, j) == CellAt(s, j)
    ensures forall j :: j != k ==> (CopyAt(ks, t, j, sk) <==> CopyAt(ks, s, j, sk))
  {
    forall j | j != k ensures CopyAt(ks, t, j, sk) <==> CopyAt(ks, s, j, sk) {
      assert CellAt(t, j) == CellAt(s, j);
    }
  }

  lemma MarkedAlready(o: Obj)
    requires o.deleting && Live(o).Some?
    ensures AfterDelete(o) == Some(o)
  {
  }

  /** Once every domain has been listed and every item swept, nothing is left to sweep. */
  lemma AllSwept(cfg: Config, s0: State, s: State, m: Move, targets: set<string>, k: Key)
    requires m.EndSweeping? && InPhase(cfg, s, m) && SweepCovers(cfg.ks, s, m.sk, s.working[m.sk])
    requires StoreOk(cfg.ks, s0) && m.sk.ns != "" && m.sk.name != ""
    requires targets == if s.working[m.sk].keep.Some? then s.working[m.sk].keep.value else {}
    requires PrunedTo(cfg.ks, s0, s, m.sk, s.working[m.sk].obj, targets, s.working[m.sk].seen)
    ensures ObjAt(s, k) == SyncedAt(cfg.ks, m.sk, s.working[m.sk].obj, targets, "", k, ObjAt(s0, k))
  {
    var p := s.working[m.sk];
    EndSweepingFindsNone(cfg, s, m);
    SweptIffCopy(cfg.ks, s0, m.sk, targets, k);
    hide SweepCovers;
    hide Placed;
    hide SweptAway;
    hide Targets;
    assert ObjAt(s, k) == PrunedAt(cfg.ks, m.sk, p.obj, targets, p.seen, k, ObjAt(s0, k));
    if !IsTarget(m.sk, targets, k) && k.ns !in p.seen && SweptAway(cfg.ks, m.sk, targets, "", k, ObjAt(s0, k)) {
      assert CopyAt(cfg.ks, s, k, m.sk);
      StoredOk(cfg.ks, s0, k);
      MarkedAlready(s.store[k].obj);
    }
  }

  lemma ReplicatedIsDone(cfg: Config, s0: State, s: State, sk: Key, o: Obj)
    requires ObjAt(s0, sk) == Some(o) && BranchOf(cfg, Some(o)).Replicate?
    requires forall k :: ObjAt(s, k) == SyncedAt(cfg.ks, sk, o, Targets(cfg, s0.namespaces, sk, BranchOf(cfg, Some(o)).sel),
                                                 "", k, ObjAt(s0, k))
    ensures PassDone(cfg, s0, s, sk)
  {
    ReplicateScope(cfg, s0.namespaces, None, sk, BranchOf(cfg, Some(o)).sel, o, cfg.hub);
    hide BranchAt;
    hide BranchWrites;
    hide BranchOf;
    hide SyncedAt;
    hide Targets;
  }

  lemma EndSweepingNext(cfg: Config, s: State, m: Move)
    requires m.EndSweeping? && InPhase(cfg, s, m)
    ensures var p := s.working[m.sk];
            NextOf(cfg, s, m) == if p.keep.Some? then Rest else Go(Releasing(p.obj, p.ver))
  {
  }

  lemma EndSweepingProgress(cfg: Config, s0: State, s: State, m: Move)
    requires m.EndSweeping? && InPhase(cfg, s, m) && SweepCovers(cfg.ks, s, m.sk, s.working[m.sk])
    requires StoreOk(cfg.ks, s0) && m.sk.ns != "" && m.sk.name != ""
    requires Progress(cfg, s0, s, m.sk, s.working[m.sk])
    ensures NextOf(cfg, s, m).Go? ==> Progress(cfg, s0, s, m.sk, NextOf(cfg, s, m).phase)
    ensures NextOf(cfg, s, m).Rest? ==> PassDone(cfg, s0, s, m.sk)
    ensures !NextOf(cfg, s, m).Retry?
  {
    hide SweepCovers;
    hide PrunedTo;
    hide StoreOk;
    hide PassDone;
    hide Targets;
    hide BranchOf;
    hide SweptAt;
    hide Placed;
    hide CopyAt;
    hide NextOf;
    var p := s.working[m.sk];
    var targets := if p.keep.Some? then p.keep.value else {};
    EndSweepingNext(cfg, s, m);
    forall k ensures ObjAt(s, k) == SyncedAt(cfg.ks, m.sk, p.obj, targets, "", k, ObjAt(s0, k)) {
      AllSwept(cfg, s0, s, m, targets, k);
    }
    if p.keep.Some? {
      ReplicatedIsDone(cfg, s0, s, m.sk, p.obj);
    }
  }

  lemma ReleaseProgress(cfg: Config, s0: State, s: State, m: Move)
    requires m.Release? && AllOk(cfg, s, m, m.sk) && Progress(cfg, s0, s, m.sk, s.working[m.sk])
    ensures NextOf(cfg, s, m).Rest? && PassDone(cfg, s0, Effect(cfg, s, m), m.sk)
  {
    var o := s.working[m.sk].obj;
    CleanUpBranch(cfg, s0.namespaces, None, m.sk, o, cfg.hub);
    hide BranchAt;
    hide BranchWrites;
    hide BranchOf;
    hide SweptAt;
    hide Woken;
    hide KeySet.ReleasedFinalizers;
  }

  // -------------------------------------------------------------- the prune covers

  /** A pruning worker's lists have missed nothing. */
  ghost predicate Covering(ks: KeySet, s: State, sk: Key, p: Phase) {
    p.Sweeping? ==> SweepCovers(ks, s, sk, p)
  }

  lemma CoveringNext(cfg: Config, s: State, m: Move)
    requires StoreOk(cfg.ks, s) && ByWorker(m) && AllOk(cfg, s, m, m.sk) && NextOf(cfg, s, m).Go?
    requires !m.Start? ==> m.sk.ns != "" && m.sk.name != "" && Covering(cfg.ks, s, m.sk, s.working[m.sk])
    ensures Covering(cfg.ks, Effect(cfg, s, m), m.sk, NextOf(cfg, s, m).phase)
  {
    var q := NextOf(cfg, s, m).phase;
    if m.ListCopies? {
      forall k | k in m.items ensures k.name == m.sk.name {
        ListedAreCopies(cfg, s, m.sk, s.working[m.sk].listed, k);
      }
      hide StoreOk;
      hide SweepCovers;
      ListCopiesCovers(cfg.ks, s, m.sk, s.working[m.sk], q);
    } else if m.Sweep? {
      hide StoreOk;
      hide SweepCovers;
      SweepCoversNext(cfg.ks, s, Effect(cfg, s, m), m.sk, s.working[m.sk], m.k);
    } else {
      hide StoreOk;
      hide SweepCovers;
      SweepingStarts(cfg, s, m);
      if q.Sweeping? {
        NothingListedYet(cfg.ks, Effect(cfg, s, m), m.sk, q);
      }
    }
  }

  lemma SweepingStarts(cfg: Config, s: State, m: Move)
    requires InPhaseOf(cfg, s, m) && NextOf(cfg, s, m).Go? && !m.ListCopies? && !m.Sweep?
    ensures var q := NextOf(cfg, s, m).phase; q.Sweeping? ==> q.listed == 0 && q.seen == {} && q.items == {}
  {
    hide Targets;
    hide Judge;
    hide BranchOf;
  }

  // ------------------------------------------------------------------ whole runs

  lemma ReadProgress(cfg: Config, s0: State, s: State, m: Move)
    requires Inv(cfg, s) && StoreOk(cfg.ks, s0) && ByWorker(m) && AllOk(cfg, s, m, m.sk)
    requires m.ListNamespaces? || m.Look? || m.EndPlacing? || m.ListCopies? || m.EndSweeping?
    requires Progress(cfg, s0, s, m.sk, s.working[m.sk]) && Covering(cfg.ks, s, m.sk, s.working[m.sk])
    ensures !NextOf(cfg, s, m).Retry?
    ensures NextOf(cfg, s, m).Go? ==> Progress(cfg, s0, s, m.sk, NextOf(cfg, s, m).phase)
    ensures NextOf(cfg, s, m).Rest? ==> PassDone(cfg, s0, s, m.sk)
  {
    InvHere(cfg, s, m.sk);
    hide Inv;
    hide StoreOk;
    hide Progress;
    hide PassDone;
    hide NextOf;
    hide AllOk;
    match m {
      case ListNamespaces(_, _, _) => ListProgress(cfg, s0, s, m);
      case Look(_, _, _, _) => LookProgress(cfg, s0, s, m);
      case EndPlacing(_) => EndPlacingProgress(cfg, s0, s, m);
      case ListCopies(_, _, _) => ListCopiesProgress(cfg, s0, s, m);
      case EndSweeping(_) => EndSweepingProgress(cfg, s0, s, m);
    }
  }

  lemma StepProgress(cfg: Config, s0: State, s: State, m: Move)
    requires Inv(cfg, s) && StoreOk(cfg.ks, s0) && ByWorker(m) && !m.Start? && AllOk(cfg, s, m, m.sk)
    requires Progress(cfg, s0, s, m.sk, s.working[m.sk]) && !Stamped(cfg.ks, m.sk, s.working[m.sk].obj)
    requires Covering(cfg.ks, s, m.sk, s.working[m.sk])
    ensures !NextOf(cfg, s, m).Retry?
    ensures NextOf(cfg, s, m).Go? ==> Progress(cfg, s0, Effect(cfg, s, m), m.sk, NextOf(cfg, s, m).phase)
    ensures NextOf(cfg, s, m).Rest? ==> PassDone(cfg, s0, Effect(cfg, s, m), m.sk)
  {
    hide Judge;
    hide Placed;
    hide BranchOf;
    hide FilledTo;
    hide Targets;
    hide Progress;
    hide PassDone;
    InvHere(cfg, s, m.sk);
    hide Inv;
    hide StoreOk;
    hide Effect;
    hide NextOf;
    hide Stamped;
    hide AllOk;
    if m.Fix? {
      FixProgress(cfg, s0, s, m);
    } else if m.Write? {
      WriteProgress(cfg, s0, s, m);
    } else if m.Sweep? {
      SweepProgress(cfg, s0, s, m);
    } else if m.Release? {
      ReleaseProgress(cfg, s0, s, m);
    } else {
      ReadEffect(cfg, s, m);
      ReadProgress(cfg, s0, s, m);
    }
  }

  lemma InvHere(cfg: Config, s: State, sk: Key)
    requires Inv(cfg, s) && sk in s.working
    ensures StoreOk(cfg.ks, s) && sk.ns != "" && sk.name != ""
  {
    hide StoreOk;
    hide PastOk;
    hide FinalizedSince;
    PhaseIsNamed(cfg.ks, s, sk, s.working[sk]);
    hide PhaseOk;
  }

  lemma PhaseIsNamed(ks: KeySet, s: State, sk: Key, p: Phase)
    requires PhaseOk(ks, s, sk, p)
    ensures sk.ns != "" && sk.name != ""
  {
  }

  /** One reconcile of sk, start to finish, with nobody else moving and every call succeeding. */
  ghost predicate IsReconcile(cfg: Config, sk: Key, ss: seq<State>, ms: seq<Move>) {
    && |ss| == |ms| + 1 && ms != []
    && ms[0].Start? && sk !in ss[|ms|].working
    && (forall i {:trigger ms[i]} :: 0 <= i < |ms| ==>
          Enabled(cfg, ss[i], ms[i]) && AllOk(cfg, ss[i], ms[i], sk) && ss[i + 1] == Apply(cfg, ss[i], ms[i]))
    && (forall i :: 0 < i < |ms| ==> sk in ss[i].working && !ms[i].Start?)
  }

  lemma ReconcileStep(cfg: Config, sk: Key, ss: seq<State>, ms: seq<Move>, i: nat)
    requires IsReconcile(cfg, sk, ss, ms) && i + 1 < |ss|
    ensures i < |ms| && Enabled(cfg, ss[i], ms[i]) && AllOk(cfg, ss[i], ms[i], sk) && ss[i + 1] == Apply(cfg, ss[i], ms[i])
    ensures if i == 0 then ms[i].Start? else sk in ss[i].working && !ms[i].Start?
  {
    hide Enabled;
    hide AllOk;
    hide Apply;
  }

  lemma {:induction false} ReconcileKeepsInv(cfg: Config, sk: Key, ss: seq<State>, ms: seq<Move>, i: nat)
    requires IsReconcile(cfg, sk, ss, ms) && Inv(cfg, ss[0]) && i < |ss|
    ensures Inv(cfg, ss[i])
  {
    hide Inv;
    hide IsReconcile;
    hide Apply;
    hide Enabled;
    if i > 0 {
      ReconcileKeepsInv(cfg, sk, ss, ms, i - 1);
      ReconcileStep(cfg, sk, ss, ms, i - 1);
      StepKeepsInv(cfg, ss[i - 1], ms[i - 1]);
    }
  }

  lemma ApplyProgress(cfg: Config, s0: State, s: State, m: Move)
    requires Enabled(cfg, s, m) && ByWorker(m)
    requires !NextOf(cfg, s, m).Retry?
    requires NextOf(cfg, s, m).Go? ==> Progress(cfg, s0, Effect(cfg, s, m), m.sk, NextOf(cfg, s, m).phase)
    requires NextOf(cfg, s, m).Rest? ==> PassDone(cfg, s0, Effect(cfg, s, m), m.sk)
    ensures if m.sk in Apply(cfg, s, m).working then Progress(cfg, s0, Apply(cfg, s, m), m.sk, Apply(cfg, s, m).working[m.sk])
            else PassDone(cfg, s0, Apply(cfg, s, m), m.sk)
  {
    hide Effect;
    hide NextOf;
    hide BranchOf;
    hide Targets;
    hide Judge;
    hide PassAt;
    SameProgress(cfg, s0, Effect(cfg, s, m), Apply(cfg, s, m), m.sk);
    hide Progress;
    hide PassDone;
  }

  lemma SameProgress(cfg: Config, s0: State, t: State, u: State, sk: Key)
    requires u.store == t.store && u.namespaces == t.namespaces
    ensures forall p :: Progress(cfg, s0, t, sk, p) ==> Progress(cfg, s0, u, sk, p)
    ensures PassDone(cfg, s0, t, sk) ==> PassDone(cfg, s0, u, sk)
  {
    assert forall k :: ObjAt(u, k) == ObjAt(t, k) && CellAt(u, k) == CellAt(t, k);
    assert forall k :: CopyAt(cfg.ks, u, k, sk) == CopyAt(cfg.ks, t, k, sk);
    hide BranchOf;
    hide Targets;
    hide Judge;
    hide Placed;
    hide SweptAt;
    hide PassAt;
    hide CopyAt;
  }

  lemma SameCovering(ks: KeySet, t: State, u: State, sk: Key, p: Phase)
    requires u.store == t.store && u.rev == t.rev && Covering(ks, t, sk, p)
    ensures Covering(ks, u, sk, p)
  {
    if p.Sweeping? {
      assert Frame(ks, t, u, sk);
      CoverFrame(ks, t, u, sk, p);
    }
    hide SweepCovers;
  }

  lemma {:induction false} ReconcileProgress(cfg: Config, sk: Key, ss: seq<State>, ms: seq<Move>, i: nat)
    requires IsReconcile(cfg, sk, ss, ms) && Inv(cfg, ss[0]) && 0 < i < |ss|
    requires sk in ss[0].store ==> !Stamped(cfg.ks, sk, ss[0].store[sk].obj)
    ensures if sk in ss[i].working
            then Progress(cfg, ss[0], ss[i], sk, ss[i].working[sk]) && Covering(cfg.ks, ss[i], sk, ss[i].working[sk])
            else PassDone(cfg, ss[0], ss[i], sk)
  {
    hide Inv;
    hide IsReconcile;
    hide Enabled;
    hide PassDone;
    hide Covering;
    hide Stamped;
    hide AllOk;
    ReconcileStep(cfg, sk, ss, ms, i - 1);
    var s, m := ss[i - 1], ms[i - 1];
    ReconcileKeepsInv(cfg, sk, ss, ms, i - 1);
    InvStores(cfg, ss[0]);
    InvStores(cfg, s);
    MoverIsOk(cfg, s, m, sk);
    if i == 1 {
      StartProgress(cfg, s, m);
      ReadEffect(cfg, s, m);
    } else {
      ReconcileProgress(cfg, sk, ss, ms, i - 1);
      assert s.working[sk].obj == ss[0].store[sk].obj;
      InvHere(cfg, s, sk);
      StepProgress(cfg, ss[0], s, m);
    }
    hide Progress;
    if NextOf(cfg, s, m).Go? {
      CoveringNext(cfg, s, m);
    }
    ApplyStore(cfg, s, m);
    ApplyWorking(cfg, s, m, sk);
    ApplyProgress(cfg, ss[0], s, m);
    if sk in ss[i].working {
      SameCovering(cfg.ks, Effect(cfg, s, m), ss[i], sk, ss[i].working[sk]);
    }
  }

  lemma MoverIsOk(cfg: Config, s: State, m: Move, sk: Key)
    requires AllOk(cfg, s, m, sk)
    ensures ByWorker(m) && m.sk == sk && InPhase(cfg, s, m)
  {
  }

  lemma InvStores(cfg: Config, s: State)
    requires Inv(cfg, s)
    ensures StoreOk(cfg.ks, s)
  {
  }

  /** The machine's worker realises the meaning of a pass on the hub. */
  lemma ReconcileRealisesPass(cfg: Config, sk: Key, ss: seq<State>, ms: seq<Move>)
    requires IsReconcile(cfg, sk, ss, ms) && Inv(cfg, ss[0])
    requires sk in ss[0].store ==> !Stamped(cfg.ks, sk, ss[0].store[sk].obj)
    ensures var s, t := ss[0], ss[|ms|];
            forall k :: ObjAt(t, k) == PassAt(cfg, s.namespaces, None, sk, ObjAt(s, sk), cfg.hub, k, ObjAt(s, k))
  {
    ReconcileProgress(cfg, sk, ss, ms, |ms|);
  }
}
