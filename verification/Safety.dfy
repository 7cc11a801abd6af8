/** What every interleaving keeps: a replicating worker's source stays guarded, no copy
    changes hands, and, where no cleaning list misses a copy, no copy is without a guarded
    source. */
module Safety {
  import opened Objects
  import opened Keys
  import opened KeySets
  import opened Copies
  import opened Reconciling
  import opened Controller

  /** The source exists and carries a Replikate finalizer of some honoured domain. */
  predicate Guarded(ks: KeySet, s: State, sk: Key) {
    sk in s.store && ks.HasFinalizer(s.store[sk].obj)
  }

  predicate CopyAt(ks: KeySet, s: State, k: Key, sk: Key) {
    k in s.store && ks.CopyOrigin(s.store[k].obj) == Some(sk)
  }

  predicate LiveCopyAt(ks: KeySet, s: State, k: Key, sk: Key) {
    CopyAt(ks, s, k, sk) && !s.store[k].obj.deleting
  }

  /** No orphans: every copy that is not on its way out has a guarded source. */
  ghost predicate NoOrphans(ks: KeySet, s: State) {
    forall k, sk :: LiveCopyAt(ks, s, k, sk) ==> Guarded(ks, s, sk)
  }

  /** A stored object is not waiting to vanish, a source carries no stamp, and a copy
      carries one stamp and its source's name. */
  ghost predicate ObjOk(ks: KeySet, k: Key, o: Obj) {
    && Live(o).Some?
    && (ks.IsSource(o) || ks.HasFinalizer(o) ==> k.ns != "" && k.name != "")
    && (ks.IsSource(o) ==> ks.Clean(o.labels))
    && (ks.IsManagedCopy(o) ==>
          ks.SingleStamp(o.labels) && ks.CopyOrigin(o).Some? && ks.CopyOrigin(o).value.name == k.name)
  }

  ghost predicate StoreOk(ks: KeySet, s: State) {
    forall k :: k in s.store ==> s.store[k].ver < s.rev && ObjOk(ks, k, s.store[k].obj)
  }

  /** What was ever stored was well formed, and what is stored is the newest version. */
  ghost predicate PastOk(ks: KeySet, s: State) {
    && (forall v :: v in s.past ==>
          && v < s.rev && ObjOk(ks, s.past[v].key, s.past[v].obj)
          && (s.past[v].key in s.store ==> v <= s.store[s.past[v].key].ver))
    && (forall k :: k in s.store ==>
          s.store[k].ver in s.past && s.past[s.store[k].ver] == Event(k, s.store[k].obj))
  }

  /** A version of sk that a worker can still start from. */
  predicate ReadableFor(s: State, sk: Key, v: nat) {
    v in s.past && s.past[v].key == sk && (sk in s.started ==> s.started[sk] <= v)
  }

  /** A live source that a worker can still read as finalized is finalized: the finalizer comes
      off only after a worker has started from a version that is no live source. */
  ghost predicate FinalizedSince(ks: KeySet, s: State) {
    forall sk, v :: v in s.past && ReadableFor(s, sk, v) && FinalizedSource(ks, s.past[v].obj) ==> Guarded(ks, s, sk)
  }

  predicate FinalizedSource(ks: KeySet, o: Obj) {
    !o.deleting && ks.IsSource(o) && ks.HasFinalizer(o)
  }

  /** A cleaning worker works from the version it started from. */
  predicate StartedOk(s: State, sk: Key, p: Phase) {
    (p.Sweeping? && p.keep.None?) || p.Releasing? ==> sk in s.started && s.started[sk] == p.ver
  }

  /** An object read earlier: while its version stands, so does its content. */
  predicate Remembered(s: State, k: Key, o: Obj, ver: nat) {
    ver < s.rev && (CanUpdate(s, k, ver) ==> s.store[k].obj == o)
  }

  /** A copy deleteCopies has still to deal with is in its list, or under a domain it has
      not listed yet. */
  ghost predicate Covered(ks: KeySet, s: State, sk: Key, p: Phase, k: Key)
    requires p.Sweeping? && p.listed <= |ks.Each()|
  {
    LiveCopyAt(ks, s, k, sk) && (p.keep.Some? ==> k.ns !in p.keep.value) ==>
      && k.ns !in p.seen
      && (k in p.items || forall j :: 0 <= j < p.listed ==> !Managed(ks.Each()[j], s.store[k].obj.labels))
  }

  ghost predicate SweepCovers(ks: KeySet, s: State, sk: Key, p: Phase)
    requires p.Sweeping?
  {
    && p.listed <= |ks.Each()|
    && (forall k :: k in p.items ==> k.name == sk.name)
    && (forall k :: Covered(ks, s, sk, p, k))
  }

  ghost predicate PhaseOk(ks: KeySet, s: State, sk: Key, p: Phase) {
    && sk.ns != "" && sk.name != ""
    && match p
       case Fixing(o, ver) => Remembered(s, sk, o, ver) && !o.deleting && ks.IsSource(o) && ks.Clean(o.labels)
       case Listing(o) => Guarded(ks, s, sk) && ks.Clean(o.labels)
       case Placing(o, targets, todo) => Guarded(ks, s, sk) && ks.Clean(o.labels) && todo <= targets
       case Writing(o, targets, todo, ns, got) =>
         && Guarded(ks, s, sk) && ks.Clean(o.labels) && todo <= targets && ns in targets
         && (got.Some? ==>
               && Remembered(s, CopyKey(sk, ns), got.value.obj, got.value.ver)
               && Judge(ks, sk, o, Some(got.value.obj), "").Writes())
       case Sweeping(o, ver, keep, listed, seen, items) =>
         && listed <= |ks.Each()| && (forall k :: k in items ==> k.name == sk.name)
         && (if keep.Some? then Guarded(ks, s, sk) else Remembered(s, sk, o, ver) && (o.deleting || !ks.IsSource(o)))
       case Releasing(o, ver) => Remembered(s, sk, o, ver) && (o.deleting || !ks.IsSource(o))
  }

  /** What every move keeps, whatever the reads return. */
  ghost predicate Inv(cfg: Config, s: State) {
    && cfg.ks.Sound()
    && StoreOk(cfg.ks, s) && PastOk(cfg.ks, s) && FinalizedSince(cfg.ks, s)
    && forall sk :: sk in s.working ==> PhaseOk(cfg.ks, s, sk, s.working[sk]) && StartedOk(s, sk, s.working[sk])
  }

  /** What a cleaning worker has achieved. */
  ghost predicate CleanOk(ks: KeySet, s: State, sk: Key, p: Phase) {
    match p
    case Sweeping(_, _, keep, _, _, _) => keep.None? ==> SweepCovers(ks, s, sk, p)
    case Releasing(_, _) => forall k :: !LiveCopyAt(ks, s, k, sk)
    case _ => true
  }

  /** What they keep besides, where no cleaning list misses a copy. */
  ghost predicate Tended(cfg: Config, s: State) {
    NoOrphans(cfg.ks, s) && forall sk :: sk in s.working ==> CleanOk(cfg.ks, s, sk, s.working[sk])
  }

  /** A list made to clean up after a source misses none of its live copies. */
  predicate MissesNone(cfg: Config, s: State, m: Move) {
    m.ListCopies? && InPhase(cfg, s, m) && s.working[m.sk].keep.None? ==>
      forall k :: k in ListedUnder(cfg.ks, s, m.sk, s.working[m.sk].listed) && !s.store[k].obj.deleting ==> k in m.items
  }

  // -------------------------------------------------------------- one key put

  /** Writing now over had at k takes nothing from source sk: its guard stays, and no
      copy of sk appears, revives or changes its stamp. */
  ghost predicate Spares(ks: KeySet, k: Key, had: Option<Obj>, now: Obj, sk: Key) {
    && (k == sk && had.Some? && ks.HasFinalizer(had.value) ==> Live(now).Some? && ks.HasFinalizer(now))
    && (ks.CopyOrigin(now) == Some(sk) ==>
          && had.Some? && ks.CopyOrigin(had.value) == Some(sk)
          && (had.value.deleting ==> now.deleting)
          && (forall d :: d in ks.Each() ==> Managed(d, now.labels) == Managed(d, had.value.labels)))
  }

  /** What source sk can rely on between two states. */
  ghost predicate Frame(ks: KeySet, s: State, t: State, sk: Key) {
    && s.rev <= t.rev
    && (Guarded(ks, s, sk) ==> Guarded(ks, t, sk))
    && (forall k :: k in t.store ==> t.store[k].ver >= s.rev || (k in s.store && s.store[k] == t.store[k]))
    && (forall k :: CopyAt(ks, t, k, sk) ==>
          && CopyAt(ks, s, k, sk)
          && (LiveCopyAt(ks, t, k, sk) ==> LiveCopyAt(ks, s, k, sk))
          && (forall d :: d in ks.Each() ==> Managed(d, t.store[k].obj.labels) == Managed(d, s.store[k].obj.labels)))
  }

  lemma PutFrames(ks: KeySet, s: State, k: Key, o: Obj, sk: Key)
    requires Spares(ks, k, ObjAt(s, k), o, sk)
    ensures Frame(ks, s, Put(ks, s, k, o), sk)
  {
  }

  lemma PhaseFrame(ks: KeySet, s: State, t: State, sk: Key, p: Phase)
    requires PhaseOk(ks, s, sk, p) && Frame(ks, s, t, sk)
    ensures PhaseOk(ks, t, sk, p)
  {
    hide CopyAt;
    hide LiveCopyAt;
  }

  lemma CoverFrame(ks: KeySet, s: State, t: State, sk: Key, p: Phase)
    requires p.Sweeping? && SweepCovers(ks, s, sk, p) && Frame(ks, s, t, sk)
    ensures SweepCovers(ks, t, sk, p)
  {
    forall k ensures Covered(ks, t, sk, p, k) {
      assert Covered(ks, s, sk, p, k);
      assert forall j :: 0 <= j < p.listed ==> ks.Each()[j] in ks.Each();
    }
  }

  lemma CleanFrame(ks: KeySet, s: State, t: State, sk: Key, p: Phase)
    requires CleanOk(ks, s, sk, p) && Frame(ks, s, t, sk)
    ensures CleanOk(ks, t, sk, p)
  {
    if p.Sweeping? && p.keep.None? {
      CoverFrame(ks, s, t, sk, p);
    }
    hide SweepCovers;
  }

  // ------------------------------------------------- what each writer may put

  predicate IsMover(m: Move, sk: Key) {
    ByWorker(m) && m.sk == sk
  }

  /** What every write of the machine satisfies: the object is well formed, every source
      but the mover's is spared, the mover's guard stays unless it is being released, and a
      managed copy keeps its owner. */
  ghost predicate GoodWrite(ks: KeySet, s: State, m: Move, k: Key, o: Obj) {
    && (Live(o).Some? ==> ObjOk(ks, k, o))
    && (forall sk :: !IsMover(m, sk) ==> Spares(ks, k, ObjAt(s, k), o, sk))
    && (forall sk :: IsMover(m, sk) && !m.Release? && k == sk && k in s.store && ks.HasFinalizer(s.store[k].obj) ==>
          Live(o).Some? && ks.HasFinalizer(o))
    && (k in s.store && ks.IsManagedCopy(s.store[k].obj) && ks.IsManagedCopy(o) ==>
          ks.CopyOrigin(o) == ks.CopyOrigin(s.store[k].obj))
  }

  lemma {:induction false} SameManagedSameFirst(ds: seq<Keys>, a: Labels, b: Labels)
    requires forall d :: d in ds ==> Managed(d, a) == Managed(d, b)
    ensures FirstManaged(ds, a) == FirstManaged(ds, b)
  {
    if ds != [] {
      assert ds[0] in ds && forall d :: d in ds[1..] ==> d in ds;
      SameManagedSameFirst(ds[1..], a, b);
    }
  }

  lemma SameStampSameOwner(ks: KeySet, a: Obj, b: Obj)
    requires SameStamp(ks, a.labels, b.labels)
    ensures ks.KeysFor(a) == ks.KeysFor(b) && ks.CopyOrigin(a) == ks.CopyOrigin(b)
    ensures ks.SingleStamp(a.labels) ==> ks.SingleStamp(b.labels)
  {
    SameManagedSameFirst(ks.Each(), a.labels, b.labels);
  }

  lemma SameButFinalizers(ks: KeySet, had: Obj, o: Obj)
    requires o.labels == had.labels && o.annotations == had.annotations
    ensures ks.KeysFor(o) == ks.KeysFor(had) && ks.CopyOrigin(o) == ks.CopyOrigin(had)
    ensures ks.IsSource(o) <==> ks.IsSource(had)
    ensures o.finalizers == had.finalizers ==> (ks.HasFinalizer(o) <==> ks.HasFinalizer(had))
  {
  }

  /** Changing nothing but the finalizers spares every other source. */
  lemma RefinalizedSpares(ks: KeySet, k: Key, had: Obj, fs: seq<string>, sk: Key)
    requires k == sk ==> Live(had.(finalizers := fs)).Some? && ks.HasFinalizer(had.(finalizers := fs))
    ensures Spares(ks, k, Some(had), had.(finalizers := fs), sk)
  {
    SameButFinalizers(ks, had, had.(finalizers := fs));
  }

  lemma RefinalizedOk(ks: KeySet, k: Key, had: Obj, fs: seq<string>)
    requires ObjOk(ks, k, had) && k.ns != "" && k.name != ""
    ensures Live(had.(finalizers := fs)).Some? ==> ObjOk(ks, k, had.(finalizers := fs))
  {
    SameButFinalizers(ks, had, had.(finalizers := fs));
    hide KeySet.HasFinalizer;
    hide KeySet.IsSource;
  }

  lemma FinalizedIsLive(ks: KeySet, o: Obj)
    requires ks.HasFinalizer(o)
    ensures Live(o).Some?
  {
  }

  lemma StoredOk(ks: KeySet, s: State, k: Key)
    requires StoreOk(ks, s) && k in s.store
    ensures ObjOk(ks, k, s.store[k].obj)
  {
  }

  lemma RefinalizedIsGood(ks: KeySet, s: State, m: Move, k: Key, fs: seq<string>)
    requires ks.Sound() && StoreOk(ks, s) && k in s.store && IsMover(m, k)
    requires m.Release? || ks.HasFinalizer(s.store[k].obj.(finalizers := fs))
    requires k.ns != "" && k.name != ""
    ensures GoodWrite(ks, s, m, k, s.store[k].obj.(finalizers := fs))
  {
    hide StoreOk;
    hide PastOk;
    hide FinalizedSince;
    hide ObjOk;
    hide Spares;
    hide Guarded;
    hide Live;
    hide KeySet.Sound;
    hide KeySet.CopyOrigin;
    hide KeySet.IsManagedCopy;
    hide KeySet.HasFinalizer;
    hide KeySet.IsSource;
    var had, o := s.store[k].obj, s.store[k].obj.(finalizers := fs);
    StoredOk(ks, s, k);
    RefinalizedOk(ks, k, had, fs);
    SameButFinalizers(ks, had, o);
    if !m.Release? {
      FinalizedIsLive(ks, o);
    }
    forall sk | !IsMover(m, sk) ensures Spares(ks, k, ObjAt(s, k), o, sk) {
      RefinalizedSpares(ks, k, had, fs, sk);
    }
  }

  /** The source a Fix or Release writes is as its worker read it. */
  lemma FinalizerWriteShape(cfg: Config, s: State, m: Move)
    requires Inv(cfg, s) && (m.Fix? || m.Release?) && InPhase(cfg, s, m) && Written(cfg, s, m).Some?
    ensures m.sk in s.store && s.store[m.sk].obj == s.working[m.sk].obj && m.sk.ns != "" && m.sk.name != ""
    ensures var o := s.working[m.sk].obj;
            Written(cfg, s, m) == Some((m.sk, o.(finalizers :=
              if m.Fix? then cfg.ks.MigratedFinalizers(o.finalizers) else cfg.ks.ReleasedFinalizers(o.finalizers))))
  {
    hide StoreOk;
    hide PastOk;
    hide FinalizedSince;
    hide KeySet.Sound;
    assert PhaseOk(cfg.ks, s, m.sk, s.working[m.sk]);
  }

  lemma MigratedHasFinalizer(ks: KeySet, o: Obj)
    requires ks.Sound()
    ensures ks.HasFinalizer(o.(finalizers := ks.MigratedFinalizers(o.finalizers)))
  {
    MigratedFinalizersMeaning(ks, o.finalizers);
    assert ks.primary in ks.Each();
  }

  lemma FixIsGood(cfg: Config, s: State, m: Move)
    requires Inv(cfg, s) && m.Fix? && InPhase(cfg, s, m) && Written(cfg, s, m).Some?
    ensures GoodWrite(cfg.ks, s, m, Written(cfg, s, m).value.0, Written(cfg, s, m).value.1)
  {
    hide Written;
    hide GoodWrite;
    hide StoreOk;
    hide PastOk;
    hide FinalizedSince;
    hide PhaseOk;
    hide KeySet.Sound;
    hide KeySet.HasFinalizer;
    hide KeySet.MigratedFinalizers;
    hide KeySet.ReleasedFinalizers;
    FinalizerWriteShape(cfg, s, m);
    MigratedHasFinalizer(cfg.ks, s.working[m.sk].obj);
    RefinalizedIsGood(cfg.ks, s, m, m.sk, cfg.ks.MigratedFinalizers(s.working[m.sk].obj.finalizers));
  }

  lemma ReleaseIsGood(cfg: Config, s: State, m: Move)
    requires Inv(cfg, s) && m.Release? && InPhase(cfg, s, m) && Written(cfg, s, m).Some?
    ensures GoodWrite(cfg.ks, s, m, Written(cfg, s, m).value.0, Written(cfg, s, m).value.1)
  {
    hide Written;
    hide GoodWrite;
    hide StoreOk;
    hide PastOk;
    hide FinalizedSince;
    hide PhaseOk;
    hide KeySet.ReleasedFinalizers;
    hide KeySet.MigratedFinalizers;
    hide KeySet.Sound;
    FinalizerWriteShape(cfg, s, m);
    RefinalizedIsGood(cfg.ks, s, m, m.sk, cfg.ks.ReleasedFinalizers(s.working[m.sk].obj.finalizers));
  }

  lemma MarkedSpares(ks: KeySet, k: Key, had: Obj, sk: Key)
    ensures Spares(ks, k, Some(had), had.(deleting := true), sk)
    ensures ks.HasFinalizer(had) ==> Live(had.(deleting := true)).Some? && ks.HasFinalizer(had.(deleting := true))
  {
    SameButFinalizers(ks, had, had.(deleting := true));
    assert ks.HasFinalizer(had) ==> had.finalizers != [];
  }

  lemma MarkedOk(ks: KeySet, k: Key, had: Obj)
    requires ObjOk(ks, k, had)
    ensures Live(had.(deleting := true)).Some? ==> ObjOk(ks, k, had.(deleting := true))
  {
    SameButFinalizers(ks, had, had.(deleting := true));
    hide KeySet.HasFinalizer;
    hide KeySet.IsSource;
  }

  lemma DeleteIsGood(ks: KeySet, s: State, m: Move, k: Key)
    requires ks.Sound() && StoreOk(ks, s) && Deleted(s, k).Some?
    ensures GoodWrite(ks, s, m, k, s.store[k].obj.(deleting := true))
  {
    hide StoreOk;
    hide PastOk;
    hide FinalizedSince;
    hide ObjOk;
    hide Spares;
    hide Guarded;
    hide Live;
    hide KeySet.Sound;
    hide KeySet.CopyOrigin;
    hide KeySet.IsManagedCopy;
    hide KeySet.HasFinalizer;
    hide KeySet.IsSource;
    var had, o := s.store[k].obj, s.store[k].obj.(deleting := true);
    StoredOk(ks, s, k);
    MarkedOk(ks, k, had);
    SameButFinalizers(ks, had, o);
    forall sk ensures Spares(ks, k, ObjAt(s, k), o, sk) {
      MarkedSpares(ks, k, had, sk);
    }
    MarkedSpares(ks, k, had, k);
  }

  lemma WrittenCopyOk(ks: KeySet, sk: Key, src: Obj, k: Key, o: Obj)
    requires ks.Sound() && ks.Clean(src.labels) && sk.ns != "" && sk.name != "" && k.name == sk.name
    requires o.labels == ks.CopyLabels(sk, src, "") && o.annotations == ks.CopyAnnotations(src)
    requires Live(o).Some? && (ks.HasFinalizer(o) ==> k.ns != "")
    ensures ObjOk(ks, k, o) && ks.CopyOrigin(o) == Some(sk)
  {
    WrittenCopyIsRecognised(ks, sk, src, o, "");
    CleanGivesSingleStamp(ks, sk, src, "");
  }

  /** A copy of sk over nothing, over sk's own copy, or over an unmanaged object. */
  ghost predicate CopyPut(ks: KeySet, s: State, sk: Key, src: Obj, k: Key, o: Obj) {
    && ks.Clean(src.labels) && Guarded(ks, s, sk)
    && sk.ns != "" && sk.name != "" && k.name == sk.name
    && o.labels == ks.CopyLabels(sk, src, "") && o.annotations == ks.CopyAnnotations(src)
    && match ObjAt(s, k)
       case None => !o.deleting && o.finalizers == []
       case Some(had) =>
         && ObjOk(ks, k, had) && o.deleting == had.deleting && o.finalizers == had.finalizers
         && (ks.IsManagedCopy(had) ==> ks.CopyOrigin(had) == Some(sk))
  }

  lemma CopyPutIsGood(ks: KeySet, s: State, m: Move, sk: Key, src: Obj, k: Key, o: Obj)
    requires ks.Sound() && IsMover(m, sk) && CopyPut(ks, s, sk, src, k, o)
    ensures GoodWrite(ks, s, m, k, o) && ks.CopyOrigin(o) == Some(sk)
  {
    assert k in s.store ==> ks.HasFinalizer(o) == ks.HasFinalizer(s.store[k].obj);
    WrittenCopyOk(ks, sk, src, k, o);
  }

  lemma JudgedWritable(ks: KeySet, sk: Key, src: Obj, k: Key, had: Obj)
    requires ObjOk(ks, k, had) && sk.ns != "" && sk.name != ""
    requires Judge(ks, sk, src, Some(had), "").Writes()
    ensures ks.IsManagedCopy(had) ==> ks.CopyOrigin(had) == Some(sk)
  {
    if ks.IsManagedCopy(had) {
      OwnerReadingsAgree(ks, had, sk);
    }
  }

  lemma CopyWriteShape(cfg: Config, s: State, m: Move)
    requires Inv(cfg, s) && m.Write? && InPhase(cfg, s, m) && Written(cfg, s, m).Some?
    ensures var (k, o) := Written(cfg, s, m).value; CopyPut(cfg.ks, s, m.sk, s.working[m.sk].obj, k, o)
  {
    var p := s.working[m.sk];
    assert PhaseOk(cfg.ks, s, m.sk, p);
    var k := CopyKey(m.sk, p.ns);
    if p.got.Some? {
      JudgedWritable(cfg.ks, m.sk, p.obj, k, s.store[k].obj);
    }
  }

  lemma CopyWriteIsGood(cfg: Config, s: State, m: Move)
    requires Inv(cfg, s) && m.Write? && InPhase(cfg, s, m) && Written(cfg, s, m).Some?
    ensures GoodWrite(cfg.ks, s, m, Written(cfg, s, m).value.0, Written(cfg, s, m).value.1)
    ensures cfg.ks.CopyOrigin(Written(cfg, s, m).value.1) == Some(m.sk)
  {
    hide CopyPut;
    hide GoodWrite;
    hide Written;
    hide StoreOk;
    hide PastOk;
    hide FinalizedSince;
    hide StartedOk;
    CopyWriteShape(cfg, s, m);
    var (k, o) := Written(cfg, s, m).value;
    CopyPutIsGood(cfg.ks, s, m, m.sk, s.working[m.sk].obj, k, o);
  }

  lemma UserPutIsGood(cfg: Config, s: State, m: Move)
    requires Inv(cfg, s) && m.UserPut? && UserMay(cfg.ks, s, m.k, m.obj)
    ensures GoodWrite(cfg.ks, s, m, m.k, m.obj)
  {
    if m.k in s.store && cfg.ks.IsManagedCopy(m.obj) {
      SameStampSameOwner(cfg.ks, s.store[m.k].obj, m.obj);
    }
    assert cfg.ks.CopyOrigin(m.obj).Some? ==> cfg.ks.IsManagedCopy(m.obj);
  }

  /** A write keeps its object's labels, or is a copy written by a worker or a user's edit. */
  lemma WriteKinds(cfg: Config, s: State, m: Move)
    requires Inv(cfg, s) && Enabled(cfg, s, m) && Written(cfg, s, m).Some? && !m.Write? && !m.UserPut?
    ensures var (k, o) := Written(cfg, s, m).value; k in s.store && o.labels == s.store[k].obj.labels
  {
    if m.Fix? || m.Release? {
      hide Inv;
      hide Written;
      FinalizerWriteShape(cfg, s, m);
    } else {
      hide Inv;
    }
  }

  lemma EveryWriteIsGood(cfg: Config, s: State, m: Move)
    requires Inv(cfg, s) && Enabled(cfg, s, m) && Written(cfg, s, m).Some?
    ensures GoodWrite(cfg.ks, s, m, Written(cfg, s, m).value.0, Written(cfg, s, m).value.1)
  {
    hide GoodWrite;
    hide PhaseOk;
    hide StoreOk;
    hide PastOk;
    hide FinalizedSince;
    hide KeySet.Sound;
    hide UserMay;
    match m {
      case Fix(_, _) => FixIsGood(cfg, s, m);
      case Write(_, _) => CopyWriteIsGood(cfg, s, m);
      case Sweep(_, k, _) => DeleteIsGood(cfg.ks, s, m, k);
      case Release(_, _) => ReleaseIsGood(cfg, s, m);
      case UserPut(_, _) => UserPutIsGood(cfg, s, m);
      case UserDelete(k) => DeleteIsGood(cfg.ks, s, m, k);
      case _ =>
    }
  }

  // -------------------------------------------------------- one step keeps Inv

  lemma EffectFrames(cfg: Config, s: State, m: Move, sk: Key)
    requires Inv(cfg, s) && Enabled(cfg, s, m) && !IsMover(m, sk)
    ensures Frame(cfg.ks, s, Effect(cfg, s, m), sk)
  {
    if Written(cfg, s, m).Some? {
      EveryWriteIsGood(cfg, s, m);
      PutFrames(cfg.ks, s, Written(cfg, s, m).value.0, Written(cfg, s, m).value.1, sk);
    }
  }

  lemma MoverKeepsGuard(cfg: Config, s: State, m: Move)
    requires Inv(cfg, s) && Enabled(cfg, s, m) && ByWorker(m) && !m.Release?
    requires Guarded(cfg.ks, s, m.sk)
    ensures Guarded(cfg.ks, Effect(cfg, s, m), m.sk)
  {
    hide Inv;
    hide Written;
    hide KeySet.HasFinalizer;
    hide KeySet.CopyOrigin;
    if Written(cfg, s, m).Some? {
      EveryWriteIsGood(cfg, s, m);
      assert IsMover(m, m.sk);
    }
  }

  lemma EffectStoreOk(cfg: Config, s: State, m: Move)
    requires Inv(cfg, s) && Enabled(cfg, s, m)
    ensures StoreOk(cfg.ks, Effect(cfg, s, m))
  {
    hide Written;
    hide PastOk;
    hide FinalizedSince;
    hide PhaseOk;
    hide ObjOk;
    if Written(cfg, s, m).Some? {
      EveryWriteIsGood(cfg, s, m);
    }
  }

  lemma BranchFacts(cfg: Config, o: Obj)
    requires cfg.ks.Sound()
    ensures BranchOf(cfg, Some(o)).FixFinalizers? ==> !o.deleting && cfg.ks.IsSource(o)
    ensures BranchOf(cfg, Some(o)).CleanUp? ==> cfg.ks.HasFinalizer(o) && (o.deleting || !cfg.ks.IsSource(o))
    ensures BranchOf(cfg, Some(o)).Replicate? ==> cfg.ks.HasFinalizer(o) && cfg.ks.IsSource(o)
  {
    MigratedFinalizersMeaning(cfg.ks, o.finalizers);
    assert cfg.ks.primary in cfg.ks.Each();
    hide KeySet.Sound;
    hide KeySet.MigratedFinalizers;
    hide KeySet.IsSource;
    hide SelectorText;
  }

  /** A move that writes nothing, or nothing yet, leaves the store. */
  lemma ReadEffect(cfg: Config, s: State, m: Move)
    requires Enabled(cfg, s, m)
    requires m.Start? || m.ListNamespaces? || m.Look? || m.EndPlacing? || m.ListCopies? || m.EndSweeping?
    ensures Effect(cfg, s, m) == s
  {
  }

  /** A version read earlier is remembered. */
  lemma SeenIsRemembered(ks: KeySet, s: State, k: Key, c: Cell)
    requires PastOk(ks, s) && MaySee(s, k, Some(c))
    ensures Remembered(s, k, c.obj, c.ver) && ObjOk(ks, k, c.obj)
  {
  }

  lemma SeenIsGuarded(ks: KeySet, s: State, sk: Key, c: Cell)
    requires FinalizedSince(ks, s) && MaySee(s, sk, Some(c)) && (sk in s.started ==> s.started[sk] <= c.ver)
    requires FinalizedSource(ks, c.obj)
    ensures Guarded(ks, s, sk)
  {
  }

  lemma StartPhaseOk(cfg: Config, s: State, m: Move)
    requires Inv(cfg, s) && m.Start? && InPhase(cfg, s, m) && ReadsTruly(cfg, s, m) && NextOf(cfg, s, m).Go?
    ensures PhaseOk(cfg.ks, s, m.sk, NextOf(cfg, s, m).phase)
  {
    hide StoreOk;
    var Cell(o, ver) := m.seen.value;
    SeenIsRemembered(cfg.ks, s, m.sk, m.seen.value);
    BranchFacts(cfg, o);
    if FinalizedSource(cfg.ks, o) {
      SeenIsGuarded(cfg.ks, s, m.sk, m.seen.value);
    }
    StartsReplicating(cfg, o);
    hide PastOk;
    hide FinalizedSince;
    hide Guarded;
    hide BranchOf;
    hide KeySet.SingleStamp;
    hide KeySet.Clean;
    hide KeySet.IsSource;
    hide KeySet.HasFinalizer;
    hide KeySet.Sound;
  }

  lemma StartsReplicating(cfg: Config, o: Obj)
    ensures BranchOf(cfg, Some(o)).Replicate? ==> !o.deleting
  {
    hide SelectorText;
  }

  lemma StampedIsNamed(ks: KeySet, sk: Key, i: nat, k: Key, o: Obj)
    requires ObjOk(ks, k, o) && sk.ns != "" && sk.name != "" && i < |ks.Each()| && MatchesStamp(ks.Each()[i], o.labels, sk)
    ensures k.name == sk.name
  {
    assert Managed(ks.Each()[i], o.labels);
    OwnerReadingsAgree(ks, o, sk);
  }

  /** Whatever a list of copies of sk reports bears its name. */
  lemma ListedAreNamed(ks: KeySet, s: State, sk: Key, i: nat, k: Key)
    requires PastOk(ks, s) && sk.ns != "" && sk.name != "" && i < |ks.Each()| && OnceListed(ks, s, sk, i, k)
    ensures k.name == sk.name
  {
    var v :| v in s.past && s.past[v].key == k && MatchesStamp(ks.Each()[i], s.past[v].obj.labels, sk);
    StampedIsNamed(ks, sk, i, k, s.past[v].obj);
  }

  lemma CopyIsListed(ks: KeySet, s: State, sk: Key, i: nat, k: Key)
    requires StoreOk(ks, s) && sk.ns != "" && sk.name != "" && i < |ks.Each()|
    requires CopyAt(ks, s, k, sk) && Managed(ks.Each()[i], s.store[k].obj.labels)
    ensures k in ListedUnder(ks, s, sk, i)
  {
    var o := s.store[k].obj;
    assert ObjOk(ks, k, o);
    assert ks.KeysFor(o) == Some(ks.Each()[i]);
  }

  lemma ListCopiesCoversAt(ks: KeySet, s: State, sk: Key, p: Phase, q: Phase, k: Key)
    requires StoreOk(ks, s) && sk.ns != "" && sk.name != ""
    requires p.Sweeping? && p.items == {} && p.listed < |ks.Each()| && Covered(ks, s, sk, p, k)
    requires q.Sweeping? && q.keep == p.keep && q.seen == p.seen && q.listed == p.listed + 1
    requires k in ListedUnder(ks, s, sk, p.listed) && !s.store[k].obj.deleting ==> k in q.items
    ensures Covered(ks, s, sk, q, k)
  {
    if LiveCopyAt(ks, s, k, sk) && (q.keep.Some? ==> k.ns !in q.keep.value) {
      var labels := s.store[k].obj.labels;
      assert forall j :: 0 <= j < p.listed ==> !Managed(ks.Each()[j], labels);
      if Managed(ks.Each()[p.listed], labels) {
        CopyIsListed(ks, s, sk, p.listed, k);
      } else {
        forall j | 0 <= j < q.listed ensures !Managed(ks.Each()[j], labels) {
          assert j == p.listed || j < p.listed;
        }
      }
    }
  }

  lemma NothingListedYet(ks: KeySet, s: State, sk: Key, p: Phase)
    requires p.Sweeping? && p.listed == 0 && p.seen == {} && p.items == {}
    ensures SweepCovers(ks, s, sk, p)
  {
    forall k ensures Covered(ks, s, sk, p, k) {
    }
  }

  /** Listing one more domain keeps the sweep covering, if no live copy is missed. */
  lemma ListCopiesCovers(ks: KeySet, s: State, sk: Key, p: Phase, q: Phase)
    requires StoreOk(ks, s) && sk.ns != "" && sk.name != ""
    requires p.Sweeping? && SweepCovers(ks, s, sk, p) && p.items == {} && p.listed < |ks.Each()|
    requires q.Sweeping? && q.keep == p.keep && q.seen == p.seen && q.listed == p.listed + 1
    requires forall k :: k in q.items ==> k.name == sk.name
    requires forall k :: k in ListedUnder(ks, s, sk, p.listed) && !s.store[k].obj.deleting ==> k in q.items
    ensures SweepCovers(ks, s, sk, q)
  {
    forall k ensures Covered(ks, s, sk, q, k) {
      ListCopiesCoversAt(ks, s, sk, p, q, k);
    }
  }

  /** Sweeping one item keeps the sweep covering: it is skipped with reason, or gone. */
  lemma SweepCoversNext(ks: KeySet, s: State, t: State, sk: Key, p: Phase, k: Key)
    requires StoreOk(ks, s) && p.Sweeping? && SweepCovers(ks, s, sk, p) && k in p.items
    requires if Skips(p, k) || Deleted(s, k).None? then t == s else t == Put(ks, s, k, Deleted(s, k).value.1)
    ensures SweepCovers(ks, t, sk, p.(seen := p.seen + {k.ns}, items := p.items - {k}))
  {
    var q := p.(seen := p.seen + {k.ns}, items := p.items - {k});
    forall j ensures Covered(ks, t, sk, q, j) {
      assert Covered(ks, s, sk, p, j);
      if LiveCopyAt(ks, t, j, sk) {
        assert j in s.store && t.store[j] == s.store[j];
        assert ObjOk(ks, j, s.store[j].obj);
        assert j.ns == k.ns ==> j == k;
      }
    }
  }

  lemma SweptAll(ks: KeySet, s: State, sk: Key, p: Phase, k: Key)
    requires p.Sweeping? && SweepCovers(ks, s, sk, p) && p.items == {} && p.listed == |ks.Each()|
    ensures LiveCopyAt(ks, s, k, sk) ==> p.keep.Some? && k.ns in p.keep.value
  {
    if LiveCopyAt(ks, s, k, sk) {
      assert Covered(ks, s, sk, p, k);
      var d := ks.KeysFor(s.store[k].obj).value;
      var i :| 0 <= i < |ks.Each()| && ks.Each()[i] == d;
    }
  }

  lemma EndSweepingFindsNone(cfg: Config, s: State, m: Move)
    requires m.EndSweeping? && InPhase(cfg, s, m) && SweepCovers(cfg.ks, s, m.sk, s.working[m.sk])
    ensures var p := s.working[m.sk];
            forall k :: LiveCopyAt(cfg.ks, s, k, m.sk) ==> p.keep.Some? && k.ns in p.keep.value
  {
    hide SweepCovers;
    hide LiveCopyAt;
    var p := s.working[m.sk];
    forall k | LiveCopyAt(cfg.ks, s, k, m.sk) ensures p.keep.Some? && k.ns in p.keep.value {
      SweptAll(cfg.ks, s, m.sk, p, k);
    }
  }

  lemma SweepNextOk(cfg: Config, s: State, m: Move)
    requires Inv(cfg, s) && m.Sweep? && InPhase(cfg, s, m) && NextOf(cfg, s, m).Go?
    requires Guarded(cfg.ks, s, m.sk) ==> Guarded(cfg.ks, Effect(cfg, s, m), m.sk)
    ensures PhaseOk(cfg.ks, Effect(cfg, s, m), m.sk, NextOf(cfg, s, m).phase)
  {
    var p := s.working[m.sk];
    assert PhaseOk(cfg.ks, s, m.sk, p);
    hide StoreOk;
    hide PastOk;
    hide FinalizedSince;
    hide Guarded;
    if p.keep.None? && Written(cfg, s, m).Some? {
      DeletedRemembered(cfg.ks, s, m.k, m.sk, p.obj, p.ver);
    }
  }

  lemma DeletedRemembered(ks: KeySet, s: State, k: Key, sk: Key, o: Obj, ver: nat)
    requires Deleted(s, k).Some? && Remembered(s, sk, o, ver)
    ensures Remembered(Put(ks, s, k, Deleted(s, k).value.1), sk, o, ver)
  {
  }

  lemma ListCopiesNextOk(cfg: Config, s: State, m: Move)
    requires Inv(cfg, s) && InPhaseOf(cfg, s, m) && ReadsTruly(cfg, s, m) && m.ListCopies? && NextOf(cfg, s, m).Go?
    ensures PhaseOk(cfg.ks, s, m.sk, NextOf(cfg, s, m).phase)
  {
    hide StoreOk;
    hide FinalizedSince;
    assert PhaseOk(cfg.ks, s, m.sk, s.working[m.sk]);
    forall k | k in m.items ensures k.name == m.sk.name {
      ListedAreNamed(cfg.ks, s, m.sk, s.working[m.sk].listed, k);
    }
    hide PastOk;
    hide OnceListed;
    hide Guarded;
  }

  lemma LookNextOk(cfg: Config, s: State, m: Move)
    requires Inv(cfg, s) && InPhaseOf(cfg, s, m) && ReadsTruly(cfg, s, m) && m.Look? && NextOf(cfg, s, m).Go?
    ensures PhaseOk(cfg.ks, s, m.sk, NextOf(cfg, s, m).phase)
  {
    if m.seen.Some? {
      SeenIsRemembered(cfg.ks, s, CopyKey(m.sk, m.ns), m.seen.value);
    }
    hide PastOk;
    hide FinalizedSince;
    hide StoreOk;
    hide ObjOk;
    hide Judge;
    assert PhaseOk(cfg.ks, s, m.sk, s.working[m.sk]);
  }

  lemma ListedNextOk(cfg: Config, s: State, m: Move)
    requires Inv(cfg, s) && InPhaseOf(cfg, s, m) && NextOf(cfg, s, m).Go?
    requires m.ListNamespaces? || m.EndPlacing? || m.EndSweeping?
    ensures PhaseOk(cfg.ks, s, m.sk, NextOf(cfg, s, m).phase)
  {
    hide StoreOk;
    hide PastOk;
    hide FinalizedSince;
    hide LiveCopyAt;
    hide SelectorText;
    hide Targets;
    assert PhaseOk(cfg.ks, s, m.sk, s.working[m.sk]);
  }

  lemma ReadNextOk(cfg: Config, s: State, m: Move)
    requires Inv(cfg, s) && InPhaseOf(cfg, s, m) && ReadsTruly(cfg, s, m) && NextOf(cfg, s, m).Go?
    requires m.ListNamespaces? || m.Look? || m.EndPlacing? || m.ListCopies? || m.EndSweeping?
    ensures PhaseOk(cfg.ks, Effect(cfg, s, m), m.sk, NextOf(cfg, s, m).phase)
  {
    hide Inv;
    hide PhaseOk;
    hide NextOf;
    hide ReadsTruly;
    ReadEffect(cfg, s, m);
    hide Effect;
    if m.ListCopies? {
      ListCopiesNextOk(cfg, s, m);
    } else if m.Look? {
      LookNextOk(cfg, s, m);
    } else {
      ListedNextOk(cfg, s, m);
    }
  }

  predicate InPhaseOf(cfg: Config, s: State, m: Move) {
    ByWorker(m) && InPhase(cfg, s, m)
  }

  /** The phase a worker moves to is in order. */
  lemma NextPhaseOk(cfg: Config, s: State, m: Move)
    requires Inv(cfg, s) && InPhaseOf(cfg, s, m) && ReadsTruly(cfg, s, m) && NextOf(cfg, s, m).Go?
    ensures PhaseOk(cfg.ks, Effect(cfg, s, m), m.sk, NextOf(cfg, s, m).phase)
  {
    if m.Start? {
      ReadEffect(cfg, s, m);
      StartPhaseOk(cfg, s, m);
    } else if m.Write? || m.Sweep? {
      if Guarded(cfg.ks, s, m.sk) {
        MoverKeepsGuard(cfg, s, m);
      }
      if m.Sweep? {
        SweepNextOk(cfg, s, m);
      } else {
        WriteNextOk(cfg, s, m);
      }
    } else {
      ReadNextOk(cfg, s, m);
    }
  }

  lemma WriteNextOk(cfg: Config, s: State, m: Move)
    requires Inv(cfg, s) && m.Write? && InPhase(cfg, s, m) && NextOf(cfg, s, m).Go?
    requires Guarded(cfg.ks, s, m.sk) ==> Guarded(cfg.ks, Effect(cfg, s, m), m.sk)
    ensures PhaseOk(cfg.ks, Effect(cfg, s, m), m.sk, NextOf(cfg, s, m).phase)
  {
    assert PhaseOk(cfg.ks, s, m.sk, s.working[m.sk]);
    hide StoreOk;
    hide PastOk;
    hide FinalizedSince;
    hide Guarded;
    hide Effect;
  }

  /** A phase looks only at the store and the version counter. */
  lemma SamePhaseView(ks: KeySet, t: State, u: State, sk: Key, p: Phase)
    requires u.store == t.store && u.rev == t.rev && PhaseOk(ks, t, sk, p)
    ensures PhaseOk(ks, u, sk, p)
  {
    assert Frame(ks, t, u, sk);
    PhaseFrame(ks, t, u, sk, p);
  }

  lemma StandingPhaseOk(cfg: Config, s: State, m: Move, sk: Key)
    requires Inv(cfg, s) && Enabled(cfg, s, m) && !IsMover(m, sk) && sk in s.working
    ensures PhaseOk(cfg.ks, Effect(cfg, s, m), sk, s.working[sk])
  {
    EffectFrames(cfg, s, m, sk);
    PhaseFrame(cfg.ks, s, Effect(cfg, s, m), sk, s.working[sk]);
  }

  lemma PhaseAfter(cfg: Config, s: State, m: Move, sk: Key)
    requires Inv(cfg, s) && Enabled(cfg, s, m) && sk in Apply(cfg, s, m).working
    ensures PhaseOk(cfg.ks, Apply(cfg, s, m), sk, Apply(cfg, s, m).working[sk])
  {
    ApplyStore(cfg, s, m);
    ApplyWorking(cfg, s, m, sk);
    if IsMover(m, sk) {
      NextPhaseOk(cfg, s, m);
    } else {
      StandingPhaseOk(cfg, s, m, sk);
    }
    SamePhaseView(cfg.ks, Effect(cfg, s, m), Apply(cfg, s, m), sk, Apply(cfg, s, m).working[sk]);
  }

  /** A worker's move finds it in the right phase. */
  predicate Movable(cfg: Config, s: State, m: Move) {
    ByWorker(m) ==> InPhase(cfg, s, m)
  }

  /** A move changes the store by its write alone. */
  lemma ApplyStore(cfg: Config, s: State, m: Move)
    requires Movable(cfg, s, m)
    ensures Apply(cfg, s, m).store == Effect(cfg, s, m).store && Apply(cfg, s, m).rev == Effect(cfg, s, m).rev
    ensures Apply(cfg, s, m).past == Effect(cfg, s, m).past
  {
    hide InPhase;
    hide Effect;
    hide NextOf;
    hide Misled;
    hide MovedOn;
    hide OtherMove;
    if ByWorker(m) {
      MovedOnWorking(Noted(cfg, s, m), m.sk, NextOf(cfg, s, m), m.sk);
    } else {
      OtherMoveWorking(cfg, Effect(cfg, s, m), m, Key("", ""));
    }
  }

  lemma MovedOnWorking(s: State, sk: Key, next: Next, other: Key)
    ensures var t := MovedOn(s, sk, next);
            && t.store == s.store && t.past == s.past && t.rev == s.rev && t.started == s.started
            && t.late == s.late && t.namespaces == s.namespaces
            && t.queue == (if next.Retry? then s.queue + {sk} else s.queue)
            && (sk in t.working <==> next.Go?) && (next.Go? ==> t.working[sk] == next.phase)
            && (other != sk ==> (other in t.working <==> other in s.working)
                                && (other in s.working ==> t.working[other] == s.working[other]))
  {
  }

  lemma OtherMoveWorking(cfg: Config, s: State, m: Move, sk: Key)
    requires !ByWorker(m)
    ensures var t := OtherMove(cfg, s, m);
            && t.store == s.store && t.past == s.past && t.rev == s.rev && t.started == s.started
            && (m.Restart? ==> t.working == map[]) && (!m.Restart? ==> t.working == s.working)
  {
    hide AllWoken;
  }

  /** A move changes no phase but its mover's. */
  lemma ApplyWorking(cfg: Config, s: State, m: Move, sk: Key)
    requires Movable(cfg, s, m)
    ensures sk in Apply(cfg, s, m).working ==>
              if IsMover(m, sk) then NextOf(cfg, s, m).Go? && Apply(cfg, s, m).working[sk] == NextOf(cfg, s, m).phase
              else sk in s.working && Apply(cfg, s, m).working[sk] == s.working[sk]
  {
    EffectKeepsStarted(cfg, s, m);
    hide InPhase;
    hide Effect;
    hide NextOf;
    hide Misled;
    hide MovedOn;
    hide OtherMove;
    if ByWorker(m) {
      MovedOnWorking(Noted(cfg, s, m), m.sk, NextOf(cfg, s, m), sk);
    } else {
      OtherMoveWorking(cfg, Effect(cfg, s, m), m, sk);
    }
  }

  // ------------------------------------------------------------ the past

  lemma EffectPastOk(cfg: Config, s: State, m: Move)
    requires Inv(cfg, s) && Enabled(cfg, s, m)
    ensures PastOk(cfg.ks, Effect(cfg, s, m))
  {
    hide StoreOk;
    hide PastOk;
    hide Written;
    hide FinalizedSince;
    hide PhaseOk;
    hide StartedOk;
    hide ObjOk;
    hide Spares;
    hide ReadsTruly;
    hide Put;
    if Written(cfg, s, m).Some? {
      EveryWriteIsGood(cfg, s, m);
      var (k, o) := Written(cfg, s, m).value;
      PutPastOk(cfg.ks, s, k, o);
    }
  }

  lemma PutPastOk(ks: KeySet, s: State, k: Key, o: Obj)
    requires StoreOk(ks, s) && PastOk(ks, s) && (Live(o).Some? ==> ObjOk(ks, k, o))
    ensures PastOk(ks, Put(ks, s, k, o))
  {
    hide ObjOk;
    hide Live;
    hide Woken;
  }

  /** A source that is guarded stays so, but for the move that releases it. */
  lemma GuardStays(cfg: Config, s: State, m: Move, sk: Key)
    requires Inv(cfg, s) && Enabled(cfg, s, m) && Guarded(cfg.ks, s, sk)
    requires !(m.Release? && m.sk == sk)
    ensures Guarded(cfg.ks, Effect(cfg, s, m), sk)
  {
    if IsMover(m, sk) {
      MoverKeepsGuard(cfg, s, m);
    } else {
      EffectFrames(cfg, s, m, sk);
    }
  }

  /** When a source is released, no version of it that a worker can still start from is a live
      source: all but the newest are older than the one the releasing worker started from. */
  lemma ReleasedVersions(cfg: Config, s: State, m: Move, v: nat)
    requires Inv(cfg, s) && m.Release? && InPhase(cfg, s, m) && Written(cfg, s, m).Some?
    requires v in Effect(cfg, s, m).past && ReadableFor(Effect(cfg, s, m), m.sk, v)
    ensures !FinalizedSource(cfg.ks, Effect(cfg, s, m).past[v].obj)
  {
    hide StoreOk;
    hide PastOk;
    hide StartedOk;
    FinalizerWriteShape(cfg, s, m);
    ReleaseIsCurrent(cfg, s, m);
    ReleasingIsNoSource(cfg, s, m);
    StartedFromIt(cfg, s, m);
    var o := s.working[m.sk].obj;
    SameButFinalizers(cfg.ks, o, o.(finalizers := cfg.ks.ReleasedFinalizers(o.finalizers)));
    if v in s.past && s.past[v] == Effect(cfg, s, m).past[v] {
      NewestStands(cfg.ks, s, m.sk, v, s.working[m.sk].ver);
    }
    hide Inv;
    hide Written;
    hide Woken;
    hide KeySet.IsSource;
    hide KeySet.HasFinalizer;
    hide KeySet.ReleasedFinalizers;
  }

  lemma StartedFromIt(cfg: Config, s: State, m: Move)
    requires Inv(cfg, s) && m.Release? && InPhase(cfg, s, m)
    ensures PastOk(cfg.ks, s) && m.sk in s.started && s.started[m.sk] == s.working[m.sk].ver
  {
    hide StoreOk;
    hide PastOk;
    hide FinalizedSince;
    hide PhaseOk;
    assert StartedOk(s, m.sk, s.working[m.sk]);
  }

  lemma NewestStands(ks: KeySet, s: State, sk: Key, v: nat, ver: nat)
    requires PastOk(ks, s) && CanUpdate(s, sk, ver)
    requires v in s.past && s.past[v].key == sk && ver <= v
    ensures v == ver && s.past[v].obj == s.store[sk].obj
  {
    hide ObjOk;
  }

  lemma ReleasingIsNoSource(cfg: Config, s: State, m: Move)
    requires Inv(cfg, s) && m.Release? && InPhase(cfg, s, m)
    ensures var o := s.working[m.sk].obj; o.deleting || !cfg.ks.IsSource(o)
  {
    hide StoreOk;
    hide PastOk;
    hide FinalizedSince;
    assert PhaseOk(cfg.ks, s, m.sk, s.working[m.sk]);
  }

  lemma ReleaseIsCurrent(cfg: Config, s: State, m: Move)
    requires m.Release? && InPhase(cfg, s, m) && Written(cfg, s, m).Some?
    ensures CanUpdate(s, m.sk, s.working[m.sk].ver)
  {
  }

  lemma EffectFinalizedSince(cfg: Config, s: State, m: Move)
    requires Inv(cfg, s) && Enabled(cfg, s, m)
    ensures FinalizedSince(cfg.ks, Effect(cfg, s, m))
  {
    EffectKeepsStarted(cfg, s, m);
    hide Effect;
    hide Enabled;
    hide FinalizedSource;
    hide Guarded;
    hide StoreOk;
    hide PastOk;
    hide PhaseOk;
    hide Written;
    var t := Effect(cfg, s, m);
    forall sk, v | v in t.past && ReadableFor(t, sk, v) && FinalizedSource(cfg.ks, t.past[v].obj)
      ensures Guarded(cfg.ks, t, sk)
    {
      if m.Release? && m.sk == sk && Written(cfg, s, m).Some? {
        ReleasedVersions(cfg, s, m, v);
      } else if v in s.past && s.past[v] == t.past[v] {
        assert Guarded(cfg.ks, s, sk);
        KeptUnlessReleased(cfg, s, m, sk);
      } else {
        NewVersionIsStored(cfg, s, m, v);
      }
    }
  }

  lemma KeptUnlessReleased(cfg: Config, s: State, m: Move, sk: Key)
    requires Inv(cfg, s) && Enabled(cfg, s, m) && Guarded(cfg.ks, s, sk)
    requires !(m.Release? && m.sk == sk && Written(cfg, s, m).Some?)
    ensures Guarded(cfg.ks, Effect(cfg, s, m), sk)
  {
    if !(m.Release? && m.sk == sk) {
      GuardStays(cfg, s, m, sk);
    }
  }

  lemma EffectKeepsStarted(cfg: Config, s: State, m: Move)
    requires Movable(cfg, s, m)
    ensures Effect(cfg, s, m).started == s.started && Effect(cfg, s, m).working == s.working
    ensures Effect(cfg, s, m).late == s.late && Effect(cfg, s, m).namespaces == s.namespaces
  {
    hide Written;
    hide InPhase;
  }

  lemma NewVersionIsStored(cfg: Config, s: State, m: Move, v: nat)
    requires Inv(cfg, s) && Enabled(cfg, s, m) && v in Effect(cfg, s, m).past
    requires !(v in s.past && s.past[v] == Effect(cfg, s, m).past[v])
    ensures var e := Effect(cfg, s, m).past[v];
            e.key in Effect(cfg, s, m).store && Effect(cfg, s, m).store[e.key].obj == e.obj
  {
    hide Inv;
    hide Written;
  }

  lemma SameStoreSameFacts(cfg: Config, t: State, u: State)
    requires u.store == t.store && u.rev == t.rev && u.past == t.past
    requires forall sk :: sk in t.started ==> sk in u.started && t.started[sk] <= u.started[sk]
    requires StoreOk(cfg.ks, t) && PastOk(cfg.ks, t) && FinalizedSince(cfg.ks, t)
    ensures StoreOk(cfg.ks, u) && PastOk(cfg.ks, u) && FinalizedSince(cfg.ks, u)
  {
    hide ObjOk;
    hide FinalizedSource;
    assert forall sk :: Guarded(cfg.ks, t, sk) == Guarded(cfg.ks, u, sk);
    hide Guarded;
  }

  lemma StartReadsOn(cfg: Config, s: State, m: Move)
    requires Enabled(cfg, s, m) && m.Start? && m.seen.Some? && m.sk in s.started
    ensures s.started[m.sk] <= m.seen.value.ver
  {
  }

  lemma ApplyStarted(cfg: Config, s: State, m: Move)
    requires Movable(cfg, s, m)
    ensures Apply(cfg, s, m).started == StartedBy(s, m)
  {
    EffectKeepsStarted(cfg, s, m);
    hide InPhase;
    hide Effect;
    hide NextOf;
    hide Misled;
    hide MovedOn;
    hide OtherMove;
    if ByWorker(m) {
      MovedOnWorking(Noted(cfg, s, m), m.sk, NextOf(cfg, s, m), m.sk);
    } else {
      OtherMoveWorking(cfg, Effect(cfg, s, m), m, Key("", ""));
    }
  }

  lemma StartedGrows(cfg: Config, s: State, m: Move)
    requires Enabled(cfg, s, m)
    ensures Apply(cfg, s, m).started == StartedBy(s, m)
    ensures forall sk :: sk in s.started ==> sk in Apply(cfg, s, m).started && s.started[sk] <= Apply(cfg, s, m).started[sk]
  {
    ApplyStarted(cfg, s, m);
    if m.Start? && m.seen.Some? && m.sk in s.started {
      StartReadsOn(cfg, s, m);
    }
    hide Enabled;
    hide Apply;
  }

  lemma StartedAfter(cfg: Config, s: State, m: Move, sk: Key)
    requires Inv(cfg, s) && Enabled(cfg, s, m) && sk in Apply(cfg, s, m).working
    ensures StartedOk(Apply(cfg, s, m), sk, Apply(cfg, s, m).working[sk])
  {
    ApplyWorking(cfg, s, m, sk);
    StartedGrows(cfg, s, m);
    if IsMover(m, sk) {
      if !m.Start? {
        assert StartedOk(s, sk, s.working[sk]);
      }
      StartedNext(cfg, s, m);
    } else {
      assert StartedOk(s, sk, s.working[sk]);
    }
    hide Apply;
    hide Inv;
    hide NextOf;
  }

  lemma StartedNext(cfg: Config, s: State, m: Move)
    requires InPhaseOf(cfg, s, m) && NextOf(cfg, s, m).Go?
    ensures var q := NextOf(cfg, s, m).phase;
            (q.Sweeping? && q.keep.None?) || q.Releasing? ==>
              if m.Start? then m.seen.Some? && q.ver == m.seen.value.ver
              else ((s.working[m.sk].Sweeping? && s.working[m.sk].keep.None?) || s.working[m.sk].Releasing?)
                   && q.ver == s.working[m.sk].ver
  {
    hide Targets;
    hide BranchOf;
    hide Judge;
  }

  lemma StepKeepsInv(cfg: Config, s: State, m: Move)
    requires Inv(cfg, s) && Enabled(cfg, s, m)
    ensures Inv(cfg, Apply(cfg, s, m))
  {
    hide PhaseOk;
    hide StoreOk;
    hide PastOk;
    hide FinalizedSince;
    var u := Apply(cfg, s, m);
    EffectStoreOk(cfg, s, m);
    EffectPastOk(cfg, s, m);
    EffectFinalizedSince(cfg, s, m);
    EffectKeepsStarted(cfg, s, m);
    StartedGrows(cfg, s, m);
    ApplyStore(cfg, s, m);
    SameStoreSameFacts(cfg, Effect(cfg, s, m), u);
    forall sk | sk in u.working ensures PhaseOk(cfg.ks, u, sk, u.working[sk]) && StartedOk(u, sk, u.working[sk]) {
      PhaseAfter(cfg, s, m, sk);
      StartedAfter(cfg, s, m, sk);
    }
    hide Apply;
    hide Effect;
    hide FinalizedSince;
  }

  // -------------------------------------------------------------- no orphans

  /** A worker's copy is of a guarded source; any other write keeps the labels. */
  lemma NewCopyIsGuarded(cfg: Config, s: State, m: Move)
    requires Inv(cfg, s) && NoOrphans(cfg.ks, s) && InPhaseOf(cfg, s, m) && Enabled(cfg, s, m) && Written(cfg, s, m).Some?
    requires var o := Written(cfg, s, m).value.1; cfg.ks.CopyOrigin(o) == Some(m.sk) && !o.deleting
    ensures Guarded(cfg.ks, s, m.sk)
  {
    if m.Write? {
      hide Written;
      assert PhaseOk(cfg.ks, s, m.sk, s.working[m.sk]);
    } else {
      FinalizersKeepCopy(cfg, s, m);
      assert LiveCopyAt(cfg.ks, s, Written(cfg, s, m).value.0, m.sk);
    }
    hide Inv;
    hide Written;
    hide Guarded;
  }

  lemma FinalizersKeepCopy(cfg: Config, s: State, m: Move)
    requires Inv(cfg, s) && InPhaseOf(cfg, s, m) && !m.Write? && Written(cfg, s, m).Some?
    requires !Written(cfg, s, m).value.1.deleting
    ensures var (k, o) := Written(cfg, s, m).value;
            k in s.store && o.labels == s.store[k].obj.labels && !s.store[k].obj.deleting
  {
    if m.Fix? || m.Release? {
      hide Inv;
      hide Written;
      FinalizerWriteShape(cfg, s, m);
    } else {
      hide Inv;
    }
  }

  lemma PutFinalizersMakesNoCopy(ks: KeySet, s: State, sk: Key, fs: seq<string>, k: Key)
    requires sk in s.store
    ensures LiveCopyAt(ks, Put(ks, s, sk, s.store[sk].obj.(finalizers := fs)), k, sk) ==> LiveCopyAt(ks, s, k, sk)
  {
    SameButFinalizers(ks, s.store[sk].obj, s.store[sk].obj.(finalizers := fs));
  }

  /** The move that drops a finalizer makes no copy. */
  lemma ReleaseMakesNoCopy(cfg: Config, s: State, m: Move, k: Key)
    requires Inv(cfg, s) && m.Release? && InPhase(cfg, s, m)
    ensures LiveCopyAt(cfg.ks, Effect(cfg, s, m), k, m.sk) ==> LiveCopyAt(cfg.ks, s, k, m.sk)
  {
    hide Inv;
    hide Written;
    hide LiveCopyAt;
    hide Put;
    if Written(cfg, s, m).Some? {
      FinalizerWriteShape(cfg, s, m);
      PutFinalizersMakesNoCopy(cfg.ks, s, m.sk, cfg.ks.ReleasedFinalizers(s.working[m.sk].obj.finalizers), k);
    }
  }

  lemma CopyBefore(ks: KeySet, s: State, t: State, k: Key, sk: Key)
    requires Frame(ks, s, t, sk) && LiveCopyAt(ks, t, k, sk)
    ensures LiveCopyAt(ks, s, k, sk)
  {
  }

  /** A write that takes the finalizers off a source finds no live copy of it. */
  ghost predicate ReleasesClean(cfg: Config, s: State, m: Move) {
    m.Release? && InPhase(cfg, s, m) && Written(cfg, s, m).Some? ==> forall k :: !LiveCopyAt(cfg.ks, s, k, m.sk)
  }

  lemma EffectHasNoOrphans(cfg: Config, s: State, m: Move)
    requires Inv(cfg, s) && NoOrphans(cfg.ks, s) && Enabled(cfg, s, m) && ReleasesClean(cfg, s, m)
    ensures NoOrphans(cfg.ks, Effect(cfg, s, m))
  {
    hide Inv;
    hide Effect;
    hide LiveCopyAt;
    hide Guarded;
    hide ReadsTruly;
    hide Written;
    forall k, sk | LiveCopyAt(cfg.ks, Effect(cfg, s, m), k, sk) ensures Guarded(cfg.ks, Effect(cfg, s, m), sk) {
      if !IsMover(m, sk) {
        EffectFrames(cfg, s, m, sk);
        CopyBefore(cfg.ks, s, Effect(cfg, s, m), k, sk);
        assert LiveCopyAt(cfg.ks, s, k, sk);
      } else if m.Release? {
        ReleaseMakesNoCopy(cfg, s, m, k);
        UnwrittenStays(cfg, s, m);
      } else {
        MoverCopyIsGuarded(cfg, s, m, k);
        MoverKeepsGuard(cfg, s, m);
      }
    }
  }

  lemma UnwrittenStays(cfg: Config, s: State, m: Move)
    requires ByWorker(m) ==> InPhase(cfg, s, m)
    ensures Written(cfg, s, m).None? ==> Effect(cfg, s, m) == s
  {
    hide Written;
  }

  lemma MoverCopyIsGuarded(cfg: Config, s: State, m: Move, k: Key)
    requires Inv(cfg, s) && NoOrphans(cfg.ks, s) && InPhaseOf(cfg, s, m) && Enabled(cfg, s, m)
    requires LiveCopyAt(cfg.ks, Effect(cfg, s, m), k, m.sk)
    ensures Guarded(cfg.ks, s, m.sk)
  {
    hide Inv;
    hide Written;
    hide Guarded;
    if Written(cfg, s, m).Some? && k == Written(cfg, s, m).value.0 {
      NewCopyIsGuarded(cfg, s, m);
    } else {
      assert LiveCopyAt(cfg.ks, s, k, m.sk);
    }
  }

  lemma ListCopiesClean(cfg: Config, s: State, m: Move)
    requires Inv(cfg, s) && InPhaseOf(cfg, s, m) && ReadsTruly(cfg, s, m) && m.ListCopies? && MissesNone(cfg, s, m)
    requires CleanOk(cfg.ks, s, m.sk, s.working[m.sk]) && NextOf(cfg, s, m).Go?
    ensures CleanOk(cfg.ks, s, m.sk, NextOf(cfg, s, m).phase)
  {
    ListCopiesNextOk(cfg, s, m);
    assert PhaseOk(cfg.ks, s, m.sk, s.working[m.sk]) && StoreOk(cfg.ks, s);
    hide Inv;
    hide StoreOk;
    hide SweepCovers;
    hide ReadsTruly;
    if s.working[m.sk].keep.None? {
      ListCopiesCovers(cfg.ks, s, m.sk, s.working[m.sk], NextOf(cfg, s, m).phase);
    }
  }

  lemma SweepClean(cfg: Config, s: State, m: Move)
    requires Inv(cfg, s) && m.Sweep? && InPhase(cfg, s, m) && NextOf(cfg, s, m).Go?
    requires CleanOk(cfg.ks, s, m.sk, s.working[m.sk])
    ensures CleanOk(cfg.ks, Effect(cfg, s, m), m.sk, NextOf(cfg, s, m).phase)
  {
    assert StoreOk(cfg.ks, s);
    hide Inv;
    hide StoreOk;
    hide SweepCovers;
    if s.working[m.sk].keep.None? {
      SweepCoversNext(cfg.ks, s, Effect(cfg, s, m), m.sk, s.working[m.sk], m.k);
    }
  }

  /** The phase a worker moves to is as clean as it should be. */
  lemma NextPhaseClean(cfg: Config, s: State, m: Move)
    requires Inv(cfg, s) && InPhaseOf(cfg, s, m) && ReadsTruly(cfg, s, m) && MissesNone(cfg, s, m) && NextOf(cfg, s, m).Go?
    requires !m.Start? ==> CleanOk(cfg.ks, s, m.sk, s.working[m.sk])
    ensures CleanOk(cfg.ks, Effect(cfg, s, m), m.sk, NextOf(cfg, s, m).phase)
  {
    if m.ListCopies? {
      ReadEffect(cfg, s, m);
      ListCopiesClean(cfg, s, m);
    } else if m.Sweep? {
      SweepClean(cfg, s, m);
    } else if m.EndSweeping? {
      ReadEffect(cfg, s, m);
      EndSweepingClean(cfg, s, m);
    } else {
      OtherPhasesClean(cfg, s, m);
    }
  }

  lemma EndSweepingClean(cfg: Config, s: State, m: Move)
    requires m.EndSweeping? && InPhase(cfg, s, m) && NextOf(cfg, s, m).Go?
    requires CleanOk(cfg.ks, s, m.sk, s.working[m.sk])
    ensures CleanOk(cfg.ks, s, m.sk, NextOf(cfg, s, m).phase)
  {
    hide SweepCovers;
    hide LiveCopyAt;
    EndSweepingFindsNone(cfg, s, m);
  }

  lemma OtherPhasesClean(cfg: Config, s: State, m: Move)
    requires InPhaseOf(cfg, s, m) && NextOf(cfg, s, m).Go?
    requires !m.ListCopies? && !m.Sweep? && !m.EndSweeping?
    ensures CleanOk(cfg.ks, Effect(cfg, s, m), m.sk, NextOf(cfg, s, m).phase)
  {
    hide Effect;
    hide Targets;
    hide BranchOf;
    hide Judge;
  }

  lemma SameCleanView(ks: KeySet, t: State, u: State, sk: Key, p: Phase)
    requires u.store == t.store && u.rev == t.rev && CleanOk(ks, t, sk, p)
    ensures CleanOk(ks, u, sk, p)
  {
    assert Frame(ks, t, u, sk);
    CleanFrame(ks, t, u, sk, p);
  }

  lemma CleanAfter(cfg: Config, s: State, m: Move, sk: Key)
    requires Inv(cfg, s) && Tended(cfg, s) && Enabled(cfg, s, m) && MissesNone(cfg, s, m) && sk in Apply(cfg, s, m).working
    ensures CleanOk(cfg.ks, Apply(cfg, s, m), sk, Apply(cfg, s, m).working[sk])
  {
    ApplyStore(cfg, s, m);
    ApplyWorking(cfg, s, m, sk);
    if IsMover(m, sk) {
      NextPhaseClean(cfg, s, m);
    } else {
      EffectFrames(cfg, s, m, sk);
      CleanFrame(cfg.ks, s, Effect(cfg, s, m), sk, s.working[sk]);
    }
    SameCleanView(cfg.ks, Effect(cfg, s, m), Apply(cfg, s, m), sk, Apply(cfg, s, m).working[sk]);
  }

  lemma SameOrphans(ks: KeySet, t: State, u: State)
    requires u.store == t.store
    ensures NoOrphans(ks, t) <==> NoOrphans(ks, u)
  {
    assert forall k, sk :: LiveCopyAt(ks, t, k, sk) <==> LiveCopyAt(ks, u, k, sk);
    assert forall sk :: Guarded(ks, t, sk) <==> Guarded(ks, u, sk);
  }

  lemma TendedReleasesClean(cfg: Config, s: State, m: Move)
    requires Tended(cfg, s) && Enabled(cfg, s, m)
    ensures ReleasesClean(cfg, s, m)
  {
    hide LiveCopyAt;
    hide NoOrphans;
    hide ReadsTruly;
    if m.Release? {
      assert CleanOk(cfg.ks, s, m.sk, s.working[m.sk]);
    }
  }

  lemma StepTends(cfg: Config, s: State, m: Move)
    requires Inv(cfg, s) && Tended(cfg, s) && Enabled(cfg, s, m) && MissesNone(cfg, s, m)
    ensures Tended(cfg, Apply(cfg, s, m))
  {
    TendedReleasesClean(cfg, s, m);
    EffectHasNoOrphans(cfg, s, m);
    ApplyStore(cfg, s, m);
    SameOrphans(cfg.ks, Effect(cfg, s, m), Apply(cfg, s, m));
    forall sk | sk in Apply(cfg, s, m).working ensures CleanOk(cfg.ks, Apply(cfg, s, m), sk, Apply(cfg, s, m).working[sk]) {
      CleanAfter(cfg, s, m, sk);
    }
    hide Apply;
    hide CleanOk;
    hide NoOrphans;
  }

  /** Exactly one move can orphan copies: the write that drops their source's finalizers, and
      it does if and only if it finds one alive. */
  lemma StepOrphansIff(cfg: Config, s: State, m: Move)
    requires Inv(cfg, s) && NoOrphans(cfg.ks, s) && Enabled(cfg, s, m)
    ensures NoOrphans(cfg.ks, Apply(cfg, s, m)) <==> ReleasesClean(cfg, s, m)
  {
    hide Inv;
    hide Effect;
    hide Apply;
    hide ReadsTruly;
    hide Written;
    hide LiveCopyAt;
    hide Guarded;
    ApplyStore(cfg, s, m);
    SameOrphans(cfg.ks, Effect(cfg, s, m), Apply(cfg, s, m));
    if ReleasesClean(cfg, s, m) {
      EffectHasNoOrphans(cfg, s, m);
    } else {
      var k :| LiveCopyAt(cfg.ks, s, k, m.sk);
      ReleaseLeavesCopies(cfg, s, m, k);
      ReleasedIsUnguarded(cfg, s, m);
    }
  }

  /** Nor does it take one away. */
  lemma ReleaseLeavesCopies(cfg: Config, s: State, m: Move, k: Key)
    requires Inv(cfg, s) && m.Release? && InPhase(cfg, s, m) && Written(cfg, s, m).Some?
    requires LiveCopyAt(cfg.ks, s, k, m.sk)
    ensures LiveCopyAt(cfg.ks, Effect(cfg, s, m), k, m.sk)
  {
    hide Inv;
    hide Written;
    hide LiveCopyAt;
    hide Put;
    FinalizerWriteShape(cfg, s, m);
    PutFinalizersKeepsCopies(cfg.ks, s, m.sk, cfg.ks.ReleasedFinalizers(s.working[m.sk].obj.finalizers), k);
  }

  lemma PutFinalizersKeepsCopies(ks: KeySet, s: State, sk: Key, fs: seq<string>, k: Key)
    requires sk in s.store && LiveCopyAt(ks, s, k, sk)
    ensures LiveCopyAt(ks, Put(ks, s, sk, s.store[sk].obj.(finalizers := fs)), k, sk)
  {
    hide Woken;
    SameButFinalizers(ks, s.store[sk].obj, s.store[sk].obj.(finalizers := fs));
  }

  lemma ReleasedIsUnguarded(cfg: Config, s: State, m: Move)
    requires Inv(cfg, s) && m.Release? && InPhase(cfg, s, m) && Written(cfg, s, m).Some?
    ensures !Guarded(cfg.ks, Effect(cfg, s, m), m.sk)
  {
    FinalizerWriteShape(cfg, s, m);
    hide Inv;
    hide Written;
  }

  // ------------------------------------------------------------------ all runs

  /** A start state: no worker is under way, the cache has seen what is stored and nothing
      older, and what earlier versions of the controller left behind obeys the same rules. */
  ghost predicate Init(cfg: Config, s: State) {
    && cfg.ks.Sound() && StoreOk(cfg.ks, s) && NoOrphans(cfg.ks, s)
    && s.working == map[] && s.started == map[] && s.late == {}
    && (forall k :: k in s.store ==> s.store[k].ver in s.past && s.past[s.store[k].ver] == Event(k, s.store[k].obj))
    && (forall v :: v in s.past ==> s.past[v].key in s.store && s.store[s.past[v].key].ver == v)
  }

  ghost predicate IsRun(cfg: Config, ss: seq<State>, ms: seq<Move>) {
    && |ss| == |ms| + 1
    && Init(cfg, ss[0])
    && forall i {:trigger ms[i]} :: 0 <= i < |ms| ==> Enabled(cfg, ss[i], ms[i]) && ss[i + 1] == Apply(cfg, ss[i], ms[i])
  }

  /** No list made to clean up, so far, has missed a live copy. */
  ghost predicate CleansFully(cfg: Config, ss: seq<State>, ms: seq<Move>, i: nat) {
    |ss| == |ms| + 1 && i < |ss| && forall j {:trigger ms[j]} :: 0 <= j < i ==> MissesNone(cfg, ss[j], ms[j])
  }

  lemma InitKeepsInv(cfg: Config, s: State)
    requires Init(cfg, s)
    ensures Inv(cfg, s) && Tended(cfg, s)
  {
    assert forall v :: v in s.past ==> s.past[v] == Event(s.past[v].key, s.store[s.past[v].key].obj);
  }

  lemma {:induction false} RunKeepsInv(cfg: Config, ss: seq<State>, ms: seq<Move>, i: nat)
    requires IsRun(cfg, ss, ms) && i < |ss|
    ensures Inv(cfg, ss[i])
  {
    hide Inv;
    hide Init;
    hide Enabled;
    hide Apply;
    if i == 0 {
      InitKeepsInv(cfg, ss[0]);
    } else {
      RunKeepsInv(cfg, ss, ms, i - 1);
      StepKeepsInv(cfg, ss[i - 1], ms[i - 1]);
    }
  }

  lemma {:induction false} RunTends(cfg: Config, ss: seq<State>, ms: seq<Move>, i: nat)
    requires IsRun(cfg, ss, ms) && CleansFully(cfg, ss, ms, i)
    ensures Tended(cfg, ss[i])
  {
    hide Inv;
    hide Tended;
    hide Init;
    hide Enabled;
    hide Apply;
    hide MissesNone;
    if i == 0 {
      InitKeepsInv(cfg, ss[0]);
    } else {
      RunTends(cfg, ss, ms, i - 1);
      RunKeepsInv(cfg, ss, ms, i - 1);
      StepTends(cfg, ss[i - 1], ms[i - 1]);
    }
  }

  /** The exact condition, over all runs and with every read as stale as it likes: no state so
      far has had an orphan if and only if no source has lost its finalizers while a copy of it
      was alive. */
  lemma {:induction false} NoOrphansIff(cfg: Config, ss: seq<State>, ms: seq<Move>, i: nat)
    requires IsRun(cfg, ss, ms) && i < |ss|
    ensures (forall j :: 0 <= j <= i ==> NoOrphans(cfg.ks, ss[j]))
       <==> forall j {:trigger ms[j]} :: 0 <= j < i ==> ReleasesClean(cfg, ss[j], ms[j])
  {
    hide Inv;
    hide Tended;
    hide Init;
    hide Enabled;
    hide Apply;
    hide NoOrphans;
    hide ReleasesClean;
    if i == 0 {
      InitHasNoOrphans(cfg, ss[0]);
    } else {
      NoOrphansIff(cfg, ss, ms, i - 1);
      RunKeepsInv(cfg, ss, ms, i - 1);
      if NoOrphans(cfg.ks, ss[i - 1]) {
        StepOrphansIff(cfg, ss[i - 1], ms[i - 1]);
      }
    }
  }

  lemma InitHasNoOrphans(cfg: Config, s: State)
    requires Init(cfg, s)
    ensures NoOrphans(cfg.ks, s)
  {
    InitKeepsInv(cfg, s);
  }

  /** No orphans, over all runs in which no cleaning list has missed a copy, however stale every
      other read: wherever a copy that is not terminating is stored, the source it names exists
      and carries a Replikate finalizer. */
  lemma NoOrphansEver(cfg: Config, ss: seq<State>, ms: seq<Move>, i: nat, k: Key)
    requires IsRun(cfg, ss, ms) && CleansFully(cfg, ss, ms, i)
    requires k in ss[i].store && cfg.ks.IsManagedCopy(ss[i].store[k].obj) && !ss[i].store[k].obj.deleting
    ensures var origin := cfg.ks.CopyOrigin(ss[i].store[k].obj);
            origin.Some? && origin.value.name == k.name && Guarded(cfg.ks, ss[i], origin.value)
  {
    RunKeepsInv(cfg, ss, ms, i);
    RunTends(cfg, ss, ms, i);
    StoredOk(cfg.ks, ss[i], k);
    assert LiveCopyAt(cfg.ks, ss[i], k, cfg.ks.CopyOrigin(ss[i].store[k].obj).value);
  }

  predicate ManagedAt(ks: KeySet, s: State, k: Key) {
    k in s.store && ks.IsManagedCopy(s.store[k].obj)
  }

  function OwnerAt(ks: KeySet, s: State, k: Key): Option<Key> {
    if k in s.store then ks.CopyOrigin(s.store[k].obj) else None
  }

  /** First writer wins: no single move, even one that rests on a stale read, gives a
      managed copy another owner. */
  lemma StepKeepsOwner(cfg: Config, s: State, m: Move, k: Key)
    requires Inv(cfg, s) && Enabled(cfg, s, m)
    requires ManagedAt(cfg.ks, s, k) && ManagedAt(cfg.ks, Apply(cfg, s, m), k)
    ensures OwnerAt(cfg.ks, Apply(cfg, s, m), k) == OwnerAt(cfg.ks, s, k)
  {
    ApplyStore(cfg, s, m);
    EffectKeepsOwner(cfg, s, m, k);
  }

  lemma EffectKeepsOwner(cfg: Config, s: State, m: Move, k: Key)
    requires Inv(cfg, s) && Enabled(cfg, s, m)
    requires ManagedAt(cfg.ks, s, k) && ManagedAt(cfg.ks, Effect(cfg, s, m), k)
    ensures OwnerAt(cfg.ks, Effect(cfg, s, m), k) == OwnerAt(cfg.ks, s, k)
  {
    hide Written;
    hide ReadsTruly;
    hide PhaseOk;
    hide PastOk;
    hide StartedOk;
    hide FinalizedSince;
    hide StoreOk;
    if Written(cfg, s, m).Some? {
      EveryWriteIsGood(cfg, s, m);
    }
  }

  lemma RunStepKeepsOwner(cfg: Config, ss: seq<State>, ms: seq<Move>, i: nat, k: Key)
    requires IsRun(cfg, ss, ms) && i + 1 < |ss|
    requires ManagedAt(cfg.ks, ss[i], k) && ManagedAt(cfg.ks, ss[i + 1], k)
    ensures OwnerAt(cfg.ks, ss[i + 1], k) == OwnerAt(cfg.ks, ss[i], k)
  {
    RunKeepsInv(cfg, ss, ms, i);
    StepKeepsOwner(cfg, ss[i], ms[i], k);
  }

  /** Over a whole run the owner of a key changes only through a moment at which the
      key holds no managed copy. */
  lemma {:induction false} OwnerChangesOnlyThroughAbsence(cfg: Config, ss: seq<State>, ms: seq<Move>, i: nat, j: nat, k: Key)
    requires IsRun(cfg, ss, ms) && i <= j < |ss|
    requires forall n :: i <= n <= j ==> ManagedAt(cfg.ks, ss[n], k)
    ensures OwnerAt(cfg.ks, ss[j], k) == OwnerAt(cfg.ks, ss[i], k)
  {
    hide IsRun;
    hide ManagedAt;
    hide OwnerAt;
    if i < j {
      OwnerChangesOnlyThroughAbsence(cfg, ss, ms, i, j - 1, k);
      RunStepKeepsOwner(cfg, ss, ms, j - 1, k);
    }
  }
}
