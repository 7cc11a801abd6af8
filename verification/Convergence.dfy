/** Quiescence means converged: whatever users, namespaces, failures and restarts do
    along the way, once the queue is empty and no worker is under way nothing is left to
    clean up, no copy is out of place or outdated, and every wanted copy is there unless its
    key was blocked. */
module Convergence {
  import opened Objects
  import opened KeySets
  import opened Copies
  import opened Reconciling
  import opened Controller
  import opened Safety

  predicate UpToDate(ks: KeySet, sk: Key, src: Obj, o: Obj) {
    && o.labels == ks.CopyLabels(sk, src, "")
    && o.annotations == ks.CopyAnnotations(src)
    && o.payload == src.payload
  }

  predicate PlacedAt(ks: KeySet, s: State, sk: Key, src: Obj, ns: string) {
    CopyKey(sk, ns) in s.store && UpToDate(ks, sk, src, s.store[CopyKey(sk, ns)].obj)
  }

  /** o is the source as stored, and a pass would replicate it. */
  predicate Current(cfg: Config, s: State, sk: Key, o: Obj) {
    sk in s.store && s.store[sk].obj == o && BranchOf(cfg, Some(o)).Replicate?
  }

  predicate Aiming(cfg: Config, s: State, sk: Key, o: Obj, targets: set<string>) {
    Current(cfg, s, sk, o) && targets == Targets(cfg, s.namespaces, sk, BranchOf(cfg, Some(o)).sel)
  }

  /** Source sk wants a copy in namespace ns. */
  predicate Wants(cfg: Config, s: State, sk: Key, ns: string) {
    && sk in s.store
    && var branch := BranchOf(cfg, Some(s.store[sk].obj));
    && branch.Replicate? && ns in Targets(cfg, s.namespaces, sk, branch.sel)
  }

  // --------------------------------------------- what every run keeps for a source

  /** The source is queued, or will be: an event that wakes it is still on its way. */
  predicate Due(s: State, sk: Key) {
    sk in s.queue || sk in s.late
  }

  /** A worker whose source is not due again works on the source as it is, for the namespaces
      it wants, and its lists have missed nothing. */
  ghost predicate PhaseCurrent(cfg: Config, s: State, sk: Key, p: Phase) {
    match p
    case Fixing(_, _) => true
    case Listing(o) => Current(cfg, s, sk, o)
    case Placing(o, targets, _) => Aiming(cfg, s, sk, o, targets)
    case Writing(o, targets, _, _, _) => Aiming(cfg, s, sk, o, targets)
    case Sweeping(o, _, keep, _, _, _) =>
      keep.Some? ==> Aiming(cfg, s, sk, o, keep.value) && SweepCovers(cfg.ks, s, sk, p)
    case Releasing(_, _) => true
  }

  /** Nothing is left to clean up or to fix, and no copy is out of place. */
  ghost predicate Settled(cfg: Config, s: State, sk: Key) {
    sk in s.store ==>
      var branch := BranchOf(cfg, Some(s.store[sk].obj));
      && !branch.CleanUp? && !branch.FixFinalizers?
      && (branch.Replicate? ==> forall k :: LiveCopyAt(cfg.ks, s, k, sk) ==> Wants(cfg, s, sk, k.ns))
  }

  /** A source is due, or its worker works for what it wants, or it is settled. */
  ghost predicate Attended(cfg: Config, s: State, sk: Key) {
    !Due(s, sk) ==>
      if sk in s.working then PhaseCurrent(cfg, s, sk, s.working[sk]) else Settled(cfg, s, sk)
  }

  /** Nothing sk depends on has changed, or sk no longer needs anything. */
  ghost predicate Undisturbed(ks: KeySet, s: State, t: State, sk: Key) {
    && t.namespaces == s.namespaces
    && (ObjAt(t, sk) == ObjAt(s, sk)
        || ObjAt(t, sk) == None
        || (!ks.IsSource(t.store[sk].obj) && !ks.HasFinalizer(t.store[sk].obj)))
    && (forall k :: CopyAt(ks, t, k, sk) ==> ObjAt(t, k) == ObjAt(s, k))
  }

  /** A write that does not wake sk leaves sk undisturbed. */
  lemma SilentEffect(cfg: Config, s: State, m: Move, sk: Key)
    requires Enabled(cfg, s, m) && sk !in Effect(cfg, s, m).queue
    ensures Undisturbed(cfg.ks, s, Effect(cfg, s, m), sk)
  {
    hide Written;
    hide ReadsTruly;
  }

  lemma UndisturbedSettled(cfg: Config, s: State, t: State, sk: Key)
    requires Undisturbed(cfg.ks, s, t, sk) && Settled(cfg, s, sk)
    ensures Settled(cfg, t, sk)
  {
    forall k | LiveCopyAt(cfg.ks, t, k, sk) ensures LiveCopyAt(cfg.ks, s, k, sk) {
      assert ObjAt(t, k) == ObjAt(s, k);
    }
  }

  lemma UndisturbedPhase(cfg: Config, s: State, t: State, sk: Key, p: Phase)
    requires PhaseOk(cfg.ks, s, sk, p) && PhaseCurrent(cfg, s, sk, p)
    requires Undisturbed(cfg.ks, s, t, sk) && (Guarded(cfg.ks, s, sk) ==> Guarded(cfg.ks, t, sk))
    ensures PhaseCurrent(cfg, t, sk, p)
  {
    if p.Sweeping? && SweepCovers(cfg.ks, s, sk, p) {
      UndisturbedCovers(cfg.ks, s, t, sk, p);
    }
    hide SweepCovers;
    hide BranchOf;
    hide Targets;
    hide CopyAt;
  }

  lemma UndisturbedCovers(ks: KeySet, s: State, t: State, sk: Key, p: Phase)
    requires Undisturbed(ks, s, t, sk) && p.Sweeping? && SweepCovers(ks, s, sk, p)
    ensures SweepCovers(ks, t, sk, p)
  {
    forall k ensures Covered(ks, t, sk, p, k) {
      assert Covered(ks, s, sk, p, k);
      if LiveCopyAt(ks, t, k, sk) {
        assert ObjAt(t, k) == ObjAt(s, k);
      }
    }
  }

  /** Starting from the source as it is. */
  lemma StartAttendsNow(cfg: Config, s: State, m: Move)
    requires m.Start? && InPhase(cfg, s, m) && m.seen == CellAt(s, m.sk)
    ensures NextOf(cfg, s, m).Rest? ==> Settled(cfg, s, m.sk)
    ensures NextOf(cfg, s, m).Go? ==> PhaseCurrent(cfg, s, m.sk, NextOf(cfg, s, m).phase)
  {
  }

  /** An out-of-date start that no event will make good: the source is gone, or no business of
      the controller's any more. */
  lemma OvertakenStart(cfg: Config, s: State, m: Move)
    requires Inv(cfg, s) && m.Start? && InPhase(cfg, s, m) && ReadsTruly(cfg, s, m)
    requires m.seen != CellAt(s, m.sk) && !Misled(cfg, s, m)
    ensures !Guarded(cfg.ks, s, m.sk) && (m.sk in s.store ==> !cfg.ks.IsSource(s.store[m.sk].obj))
    ensures NextOf(cfg, s, m).Go? ==> !NextOf(cfg, s, m).phase.Listing?
  {
    if NextOf(cfg, s, m).Go? {
      StartPhaseOk(cfg, s, m);
    }
    hide Inv;
    hide ReadsTruly;
    hide BranchOf;
  }

  lemma StartAttends(cfg: Config, s: State, m: Move)
    requires Inv(cfg, s) && m.Start? && InPhase(cfg, s, m) && ReadsTruly(cfg, s, m) && !Misled(cfg, s, m)
    ensures NextOf(cfg, s, m).Rest? ==> Settled(cfg, s, m.sk)
    ensures NextOf(cfg, s, m).Go? ==> PhaseCurrent(cfg, s, m.sk, NextOf(cfg, s, m).phase)
  {
    if m.seen == CellAt(s, m.sk) {
      StartAttendsNow(cfg, s, m);
    } else {
      OvertakenStart(cfg, s, m);
      NothingSettles(cfg, s, m.sk);
      if NextOf(cfg, s, m).Go? {
        StartPhases(cfg, s, m);
      }
    }
    hide Inv;
    hide ReadsTruly;
    hide Misled;
    hide NextOf;
    hide Settled;
  }

  lemma StartPhases(cfg: Config, s: State, m: Move)
    requires m.Start? && InPhase(cfg, s, m) && NextOf(cfg, s, m).Go?
    ensures var p := NextOf(cfg, s, m).phase; p.Fixing? || p.Listing? || (p.Sweeping? && p.keep.None?)
  {
  }

  lemma NothingSettles(cfg: Config, s: State, sk: Key)
    requires !Guarded(cfg.ks, s, sk) && (sk in s.store ==> !cfg.ks.IsSource(s.store[sk].obj))
    ensures Settled(cfg, s, sk)
  {
  }

  /** A written finalizer wakes its source, so an unwoken one was gone already. */
  lemma FixLeavesNone(cfg: Config, s: State, m: Move)
    requires Inv(cfg, s) && m.Fix? && InPhase(cfg, s, m)
    requires m.sk !in Effect(cfg, s, m).queue && NextOf(cfg, s, m).Rest?
    ensures m.sk !in Effect(cfg, s, m).store
  {
    if Written(cfg, s, m).Some? {
      FinalizerWriteShape(cfg, s, m);
      var fs := s.working[m.sk].obj.finalizers;
      MigratedFinalizersMeaning(cfg.ks, fs);
      assert cfg.ks.primary in cfg.ks.Each();
      hide Inv;
      hide Written;
      hide KeySet.MigratedFinalizers;
      assert cfg.ks.HasFinalizer(Written(cfg, s, m).value.1);
    }
  }

  lemma ReleasedIsNothing(cfg: Config, s: State, m: Move)
    requires Inv(cfg, s) && m.Release? && InPhase(cfg, s, m) && NextOf(cfg, s, m).Rest?
    ensures m.sk in Effect(cfg, s, m).store ==> BranchOf(cfg, Some(Effect(cfg, s, m).store[m.sk].obj)) == Nothing
  {
    hide Inv;
    hide BranchOf;
    if Written(cfg, s, m).Some? {
      hide NextOf;
      FinalizerWriteShape(cfg, s, m);
      ReleasingIsNoSource(cfg, s, m);
      hide Written;
      hide Woken;
      hide KeySet.ReleasedFinalizers;
      ReleasedBranch(cfg, s, m.sk, s.working[m.sk]);
    }
  }

  lemma ReleasedBranch(cfg: Config, s: State, sk: Key, p: Phase)
    requires p.Releasing? && (p.obj.deleting || !cfg.ks.IsSource(p.obj))
    ensures BranchOf(cfg, Some(p.obj.(finalizers := cfg.ks.ReleasedFinalizers(p.obj.finalizers)))) == Nothing
  {
    var o := p.obj.(finalizers := cfg.ks.ReleasedFinalizers(p.obj.finalizers));
    assert !cfg.ks.HasFinalizer(o) && (cfg.ks.IsSource(o) <==> cfg.ks.IsSource(p.obj));
  }

  /** Within a pass the source and its targets are carried along. */
  lemma NextIsCurrent(cfg: Config, s: State, t: State, m: Move)
    requires InPhaseOf(cfg, s, m) && !m.Start? && !m.ListCopies? && !m.Sweep? && NextOf(cfg, s, m).Go? && !Misled(cfg, s, m)
    requires t.namespaces == s.namespaces && PhaseCurrent(cfg, t, m.sk, s.working[m.sk])
    ensures PhaseCurrent(cfg, t, m.sk, NextOf(cfg, s, m).phase)
  {
    hide Targets;
    hide Judge;
    if m.EndPlacing? {
      NothingListedYet(cfg.ks, t, m.sk, NextOf(cfg, s, m).phase);
    }
    hide SweepCovers;
    hide BranchOf;
  }

  /** A list that has missed nothing keeps the prune covering. */
  lemma ListCopiesCurrent(cfg: Config, s: State, m: Move)
    requires Inv(cfg, s) && InPhaseOf(cfg, s, m) && ReadsTruly(cfg, s, m) && m.ListCopies? && NextOf(cfg, s, m).Go?
    requires !Misled(cfg, s, m) && PhaseCurrent(cfg, s, m.sk, s.working[m.sk])
    ensures PhaseCurrent(cfg, s, m.sk, NextOf(cfg, s, m).phase)
  {
    hide FinalizedSince;
    hide PastOk;
    hide StartedOk;
    hide Overtaken;
    ListCopiesNextOk(cfg, s, m);
    assert PhaseOk(cfg.ks, s, m.sk, s.working[m.sk]) && StoreOk(cfg.ks, s);
    hide Inv;
    hide StoreOk;
    hide ReadsTruly;
    hide SweepCovers;
    hide BranchOf;
    hide Targets;
    hide Guarded;
    if s.working[m.sk].keep.Some? {
      ListCopiesCovers(cfg.ks, s, m.sk, s.working[m.sk], NextOf(cfg, s, m).phase);
    }
  }

  /** And so does sweeping an item. */
  lemma SweepCurrent(cfg: Config, s: State, m: Move)
    requires Inv(cfg, s) && m.Sweep? && InPhase(cfg, s, m) && NextOf(cfg, s, m).Go?
    requires PhaseCurrent(cfg, s, m.sk, s.working[m.sk])
    requires Undisturbed(cfg.ks, s, Effect(cfg, s, m), m.sk)
    requires Guarded(cfg.ks, s, m.sk) ==> Guarded(cfg.ks, Effect(cfg, s, m), m.sk)
    ensures PhaseCurrent(cfg, Effect(cfg, s, m), m.sk, NextOf(cfg, s, m).phase)
  {
    hide BranchOf;
    hide Targets;
    hide SweepCovers;
    hide Guarded;
    hide Undisturbed;
    var p := s.working[m.sk];
    assert PhaseOk(cfg.ks, s, m.sk, p) && StoreOk(cfg.ks, s);
    hide Inv;
    hide PhaseOk;
    hide StoreOk;
    if p.keep.Some? {
      UndisturbedPhase(cfg, s, Effect(cfg, s, m), m.sk, p);
      SweepCoversNext(cfg.ks, s, Effect(cfg, s, m), m.sk, p, m.k);
    }
  }

  /** A worker on a current source does not find its selector unreadable. */
  lemma ListingGoesOn(cfg: Config, s: State, m: Move)
    requires m.ListNamespaces? && InPhase(cfg, s, m) && PhaseCurrent(cfg, s, m.sk, s.working[m.sk])
    ensures !NextOf(cfg, s, m).Rest?
  {
    hide Targets;
  }

  lemma EndSweepingSettles(cfg: Config, s: State, m: Move)
    requires m.EndSweeping? && InPhase(cfg, s, m) && NextOf(cfg, s, m).Rest?
    requires PhaseCurrent(cfg, s, m.sk, s.working[m.sk])
    ensures Settled(cfg, s, m.sk)
  {
    hide Targets;
    hide BranchOf;
    hide LiveCopyAt;
    hide SweepCovers;
    EndsWithKeep(cfg, s, m);
    EndSweepingFindsNone(cfg, s, m);
    hide NextOf;
  }

  lemma EndsWithKeep(cfg: Config, s: State, m: Move)
    requires m.EndSweeping? && InPhase(cfg, s, m) && NextOf(cfg, s, m).Rest?
    ensures s.working[m.sk].Sweeping? && s.working[m.sk].keep.Some?
  {
  }

  /** After a move its worker goes on for what the source wants, or leaves it settled. */
  lemma MoverAttends(cfg: Config, s: State, m: Move)
    requires Inv(cfg, s) && InPhaseOf(cfg, s, m) && ReadsTruly(cfg, s, m) && !m.Start?
    requires PhaseCurrent(cfg, s, m.sk, s.working[m.sk])
    requires m.sk !in Effect(cfg, s, m).queue && !Misled(cfg, s, m) && !NextOf(cfg, s, m).Retry?
    ensures NextOf(cfg, s, m).Rest? ==> Settled(cfg, Effect(cfg, s, m), m.sk)
    ensures NextOf(cfg, s, m).Go? ==> PhaseCurrent(cfg, Effect(cfg, s, m), m.sk, NextOf(cfg, s, m).phase)
  {
    hide Inv;
    hide ReadsTruly;
    hide PhaseCurrent;
    hide Settled;
    hide Misled;
    hide Effect;
    if NextOf(cfg, s, m).Go? {
      MoverGoesOn(cfg, s, m);
    } else {
      MoverRests(cfg, s, m);
    }
  }

  lemma MoverGoesOn(cfg: Config, s: State, m: Move)
    requires Inv(cfg, s) && InPhaseOf(cfg, s, m) && ReadsTruly(cfg, s, m) && !m.Start? && NextOf(cfg, s, m).Go?
    requires PhaseCurrent(cfg, s, m.sk, s.working[m.sk]) && m.sk !in Effect(cfg, s, m).queue && !Misled(cfg, s, m)
    ensures PhaseCurrent(cfg, Effect(cfg, s, m), m.sk, NextOf(cfg, s, m).phase)
  {
    SilentEffect(cfg, s, m, m.sk);
    NeverReleases(cfg, s, m);
    assert PhaseOk(cfg.ks, s, m.sk, s.working[m.sk]);
    hide Inv;
    hide PhaseOk;
    hide Effect;
    hide NextOf;
    hide PhaseCurrent;
    hide Guarded;
    hide ReadsTruly;
    hide Misled;
    hide Undisturbed;
    if Guarded(cfg.ks, s, m.sk) {
      MoverKeepsGuard(cfg, s, m);
    }
    if m.ListCopies? {
      ReadEffect(cfg, s, m);
      ListCopiesCurrent(cfg, s, m);
    } else if m.Sweep? {
      SweepCurrent(cfg, s, m);
    } else {
      EffectKeepsStarted(cfg, s, m);
      UndisturbedPhase(cfg, s, Effect(cfg, s, m), m.sk, s.working[m.sk]);
      NextIsCurrent(cfg, s, Effect(cfg, s, m), m);
    }
  }

  lemma NeverReleases(cfg: Config, s: State, m: Move)
    requires InPhaseOf(cfg, s, m) && NextOf(cfg, s, m).Go?
    ensures !m.Release?
  {
  }

  lemma MoverRests(cfg: Config, s: State, m: Move)
    requires Inv(cfg, s) && InPhaseOf(cfg, s, m) && ReadsTruly(cfg, s, m) && !m.Start? && NextOf(cfg, s, m).Rest?
    requires PhaseCurrent(cfg, s, m.sk, s.working[m.sk]) && m.sk !in Effect(cfg, s, m).queue
    ensures Settled(cfg, Effect(cfg, s, m), m.sk)
  {
    hide Inv;
    hide PhaseCurrent;
    hide ReadsTruly;
    RestsAfter(cfg, s, m);
    if m.Fix? {
      FixLeavesNone(cfg, s, m);
    } else if m.Release? {
      ReleasedIsNothing(cfg, s, m);
    } else if m.ListNamespaces? {
      ListingGoesOn(cfg, s, m);
    } else {
      EndSweepingSettles(cfg, s, m);
      ReadEffect(cfg, s, m);
    }
  }

  lemma RestsAfter(cfg: Config, s: State, m: Move)
    requires InPhaseOf(cfg, s, m) && NextOf(cfg, s, m).Rest? && !m.Start?
    ensures m.Fix? || m.Release? || m.ListNamespaces? || m.EndSweeping?
  {
  }

  // ----------------------------------------------------------------- one step

  lemma MovedOnDue(s: State, sk: Key, next: Next, other: Key)
    ensures Due(s, other) ==> Due(MovedOn(s, sk, next), other)
    ensures other == sk && next.Retry? ==> Due(MovedOn(s, sk, next), other)
  {
  }

  lemma NotedDue(cfg: Config, s: State, m: Move, sk: Key)
    requires InPhaseOf(cfg, s, m) && !Due(Noted(cfg, s, m), sk)
    ensures !(m.Start? && m.sk == sk) ==> sk !in Effect(cfg, s, m).queue && !Due(s, sk)
    ensures m.sk == sk ==> !Misled(cfg, s, m)
  {
    EffectKeepsStarted(cfg, s, m);
    EffectQueues(cfg, s, m);
    hide Misled;
    hide Effect;
    hide InPhase;
  }

  lemma EffectQueues(cfg: Config, s: State, m: Move)
    requires Movable(cfg, s, m)
    ensures s.queue <= Effect(cfg, s, m).queue
  {
    hide Written;
    hide InPhase;
    hide Woken;
  }

  lemma ApplyQueue(cfg: Config, s: State, m: Move, sk: Key)
    requires Movable(cfg, s, m) && !Due(Apply(cfg, s, m), sk) && !m.Restart?
    ensures !(m.Start? && m.sk == sk) ==> sk !in Effect(cfg, s, m).queue && !Due(s, sk)
    ensures IsMover(m, sk) ==> !NextOf(cfg, s, m).Retry? && !Misled(cfg, s, m)
    ensures m.ChangeNamespaces? ==> sk in s.store ==> !cfg.ks.IsSource(s.store[sk].obj)
    ensures !m.ChangeNamespaces? ==> Apply(cfg, s, m).namespaces == Effect(cfg, s, m).namespaces
    ensures Effect(cfg, s, m).namespaces == s.namespaces
  {
    EffectKeepsStarted(cfg, s, m);
    if ByWorker(m) {
      hide InPhase;
      hide Effect;
      hide Misled;
      hide NextOf;
      hide MovedOn;
      MovedOnWorking(Noted(cfg, s, m), m.sk, NextOf(cfg, s, m), sk);
      MovedOnDue(Noted(cfg, s, m), m.sk, NextOf(cfg, s, m), sk);
      NotedDue(cfg, s, m, sk);
    } else {
      EffectQueues(cfg, s, m);
      if m.ChangeNamespaces? {
        assert Effect(cfg, s, m) == s;
      }
      hide Effect;
    }
  }

  lemma ApplyMoverPhase(cfg: Config, s: State, m: Move, sk: Key)
    requires Movable(cfg, s, m) && !m.Restart?
    ensures IsMover(m, sk) ==> (sk in Apply(cfg, s, m).working <==> NextOf(cfg, s, m).Go?)
    ensures !IsMover(m, sk) ==> (sk in Apply(cfg, s, m).working <==> sk in s.working)
  {
    EffectKeepsStarted(cfg, s, m);
    hide InPhase;
    hide Effect;
    hide NextOf;
    hide Misled;
    hide MovedOn;
    hide OtherMove;
    if ByWorker(m) {
      MovedOnWorking(Noted(cfg, s, m), m.sk, NextOf(cfg, s, m), sk);
    } else {
      OtherMoveWorking(cfg, Effect(cfg, s, m), m, sk);
    }
  }

  lemma BystanderAttends(cfg: Config, s: State, m: Move, sk: Key)
    requires Inv(cfg, s) && Enabled(cfg, s, m) && !IsMover(m, sk)
    requires Attended(cfg, s, sk) && !Due(s, sk) && sk !in Effect(cfg, s, m).queue
    ensures if sk in s.working then PhaseCurrent(cfg, Effect(cfg, s, m), sk, s.working[sk])
            else Settled(cfg, Effect(cfg, s, m), sk)
  {
    SilentEffect(cfg, s, m, sk);
    EffectFrames(cfg, s, m, sk);
    if sk in s.working {
      assert PhaseOk(cfg.ks, s, sk, s.working[sk]);
      UndisturbedPhase(cfg, s, Effect(cfg, s, m), sk, s.working[sk]);
    } else {
      UndisturbedSettled(cfg, s, Effect(cfg, s, m), sk);
    }
  }

  /** What is said of a source looks only at the store and, while it replicates, at the
      namespaces. */
  lemma SameView(cfg: Config, t: State, u: State, sk: Key)
    requires u.store == t.store
    requires u.namespaces == t.namespaces || (sk in t.store ==> !cfg.ks.IsSource(t.store[sk].obj))
    ensures Settled(cfg, t, sk) ==> Settled(cfg, u, sk)
    ensures forall p :: PhaseCurrent(cfg, t, sk, p) ==> PhaseCurrent(cfg, u, sk, p)
    ensures forall ns :: Wants(cfg, t, sk, ns) <==> Wants(cfg, u, sk, ns)
    ensures forall src, ns :: PlacedAt(cfg.ks, t, sk, src, ns) <==> PlacedAt(cfg.ks, u, sk, src, ns)
  {
    hide PlacedAt;
    hide LiveCopyAt;
    hide BranchOf;
    hide Targets;
    hide SweepCovers;
    SameStoreView(cfg.ks, t, u, sk);
    if sk in t.store && !cfg.ks.IsSource(t.store[sk].obj) {
      NonSourcesDoNotReplicate(cfg, t, sk);
    }
    SameCovers(cfg.ks, t, u, sk);
    hide SweepCovers;
  }

  lemma SameCovers(ks: KeySet, t: State, u: State, sk: Key)
    requires u.store == t.store
    ensures forall p: Phase :: p.Sweeping? && SweepCovers(ks, t, sk, p) ==> SweepCovers(ks, u, sk, p)
  {
    forall p: Phase | p.Sweeping? && SweepCovers(ks, t, sk, p) ensures SweepCovers(ks, u, sk, p) {
      forall k ensures Covered(ks, u, sk, p, k) {
        assert Covered(ks, t, sk, p, k);
      }
    }
  }

  lemma NonSourcesDoNotReplicate(cfg: Config, s: State, sk: Key)
    requires sk in s.store && !cfg.ks.IsSource(s.store[sk].obj)
    ensures !BranchOf(cfg, Some(s.store[sk].obj)).Replicate?
  {
  }

  lemma SameStoreView(ks: KeySet, t: State, u: State, sk: Key)
    requires u.store == t.store
    ensures forall k :: LiveCopyAt(ks, u, k, sk) == LiveCopyAt(ks, t, k, sk)
    ensures forall src, ns :: PlacedAt(ks, u, sk, src, ns) == PlacedAt(ks, t, sk, src, ns)
  {
    hide UpToDate;
  }

  /** A restart re-lists everything, so what it leaves unqueued needs nothing. */
  lemma RelistedSettled(cfg: Config, s: State, sk: Key)
    requires sk !in AllWoken(cfg.ks, s)
    ensures Settled(cfg, s, sk)
    ensures sk in s.store ==> !cfg.ks.IsSource(s.store[sk].obj)
  {
    if sk in s.store {
      assert sk !in Woken(cfg.ks, sk, s.store[sk].obj);
    }
  }

  lemma RestartAttends(cfg: Config, s: State, m: Move, sk: Key)
    requires m.Restart?
    ensures Attended(cfg, Apply(cfg, s, m), sk)
  {
    if !Due(Apply(cfg, s, m), sk) {
      RelistedSettled(cfg, s, sk);
      SameView(cfg, s, Apply(cfg, s, m), sk);
    }
  }

  lemma StepAttends(cfg: Config, s: State, m: Move, sk: Key)
    requires Inv(cfg, s) && Enabled(cfg, s, m) && Attended(cfg, s, sk)
    ensures Attended(cfg, Apply(cfg, s, m), sk)
  {
    if m.Restart? {
      RestartAttends(cfg, s, m, sk);
    } else if !Due(Apply(cfg, s, m), sk) {
      ApplyStore(cfg, s, m);
      ApplyQueue(cfg, s, m, sk);
      ApplyWorking(cfg, s, m, sk);
      ApplyMoverPhase(cfg, s, m, sk);
      if m.ChangeNamespaces? { EffectOfNamespaces(cfg, s, m); }
      UnwokenAttends(cfg, s, m, sk);
    }
  }

  lemma UnwokenAttends(cfg: Config, s: State, m: Move, sk: Key)
    requires Inv(cfg, s) && Enabled(cfg, s, m) && Attended(cfg, s, sk)
    requires !(m.Start? && m.sk == sk) ==> sk !in Effect(cfg, s, m).queue && !Due(s, sk)
    requires Apply(cfg, s, m).store == Effect(cfg, s, m).store
    requires Apply(cfg, s, m).namespaces == Effect(cfg, s, m).namespaces
          || (sk in Effect(cfg, s, m).store ==> !cfg.ks.IsSource(Effect(cfg, s, m).store[sk].obj))
    requires IsMover(m, sk) ==> !NextOf(cfg, s, m).Retry? && !Misled(cfg, s, m)
                                && (sk in Apply(cfg, s, m).working <==> NextOf(cfg, s, m).Go?)
    requires !IsMover(m, sk) ==> (sk in Apply(cfg, s, m).working <==> sk in s.working)
    requires sk in Apply(cfg, s, m).working ==>
               Apply(cfg, s, m).working[sk] == if IsMover(m, sk) then NextOf(cfg, s, m).phase else s.working[sk]
    ensures Attended(cfg, Apply(cfg, s, m), sk)
  {
    hide Inv;
    hide Apply;
    hide Effect;
    hide NextOf;
    hide Misled;
    hide ReadsTruly;
    hide PhaseCurrent;
    hide Settled;
    hide Due;
    if !IsMover(m, sk) {
      BystanderAttends(cfg, s, m, sk);
    } else if m.Start? {
      ReadEffect(cfg, s, m);
      StartAttends(cfg, s, m);
    } else {
      MoverAttends(cfg, s, m);
    }
    SameView(cfg, Effect(cfg, s, m), Apply(cfg, s, m), sk);
  }

  // ------------------------------------------------------------------ all runs

  /** A run from a start where everything has been listed. */
  ghost predicate IsListedRun(cfg: Config, ss: seq<State>, ms: seq<Move>) {
    IsRun(cfg, ss, ms) && AllWoken(cfg.ks, ss[0]) <= ss[0].queue
  }

  lemma ListedStep(cfg: Config, ss: seq<State>, ms: seq<Move>, i: nat, sk: Key)
    requires IsListedRun(cfg, ss, ms) && i + 1 < |ss| && Attended(cfg, ss[i], sk)
    ensures Attended(cfg, ss[i + 1], sk)
  {
    RunKeepsInv(cfg, ss, ms, i);
    StepAttends(cfg, ss[i], ms[i], sk);
  }

  lemma ListedStart(cfg: Config, ss: seq<State>, ms: seq<Move>, sk: Key)
    requires IsListedRun(cfg, ss, ms)
    ensures |ss| > 0 && Attended(cfg, ss[0], sk)
  {
    if !Due(ss[0], sk) {
      RelistedSettled(cfg, ss[0], sk);
    }
  }

  lemma ListedGivesInv(cfg: Config, ss: seq<State>, ms: seq<Move>, i: nat)
    requires IsListedRun(cfg, ss, ms) && i < |ss|
    ensures Inv(cfg, ss[i])
  {
    RunKeepsInv(cfg, ss, ms, i);
  }

  /** Every reachable state keeps: a source with something to clean up, to fix or to take
      back is queued, or a worker is on its way. */
  lemma {:induction false} AlwaysAttended(cfg: Config, ss: seq<State>, ms: seq<Move>, i: nat, sk: Key)
    requires IsListedRun(cfg, ss, ms) && i < |ss|
    ensures Attended(cfg, ss[i], sk)
  {
    hide IsListedRun;
    hide Attended;
    if i == 0 {
      ListedStart(cfg, ss, ms, sk);
    } else {
      AlwaysAttended(cfg, ss, ms, i - 1, sk);
      ListedStep(cfg, ss, ms, i - 1, sk);
    }
  }

  /** Nothing is queued, on its way or under way. */
  predicate AtRest(s: State) {
    s.queue == {} && s.late == {} && s.working == map[]
  }

  /** A source that is there, is not on its way out, and asks to be replicated. */
  predicate LiveSource(cfg: Config, s: State, sk: Key) {
    sk in s.store && !s.store[sk].obj.deleting && cfg.ks.IsSource(s.store[sk].obj)
  }

  /** At rest, whatever the reads have missed: no source that is gone, deleted or no longer
      annotated has a live copy left if and only if there are no orphans at all. */
  lemma QuiescentMeansCleanedUpIff(cfg: Config, ss: seq<State>, ms: seq<Move>, i: nat)
    requires IsListedRun(cfg, ss, ms) && i < |ss| && AtRest(ss[i])
    ensures NoOrphans(cfg.ks, ss[i])
       <==> forall sk, k :: LiveCopyAt(cfg.ks, ss[i], k, sk) ==> LiveSource(cfg, ss[i], sk)
  {
    hide IsListedRun;
    hide LiveCopyAt;
    hide Settled;
    hide Guarded;
    hide LiveSource;
    hide StoreOk;
    hide PastOk;
    hide FinalizedSince;
    hide PhaseOk;
    ListedGivesInv(cfg, ss, ms, i);
    forall sk ensures LiveSource(cfg, ss[i], sk) <==> Guarded(cfg.ks, ss[i], sk) {
      AlwaysAttended(cfg, ss, ms, i, sk);
      SettledIsLiveIff(cfg, ss[i], sk);
    }
  }

  lemma SettledIsLiveIff(cfg: Config, s: State, sk: Key)
    requires cfg.ks.Sound() && Settled(cfg, s, sk)
    ensures LiveSource(cfg, s, sk) <==> Guarded(cfg.ks, s, sk)
  {
    hide LiveCopyAt;
    hide KeySet.IsSource;
    hide KeySet.Sound;
    hide KeySet.MigratedFinalizers;
    if LiveSource(cfg, s, sk) {
      MigratedHasFinalizer(cfg.ks, s.store[sk].obj);
    }
  }

  /** Whatever users do and whoever competes: at rest, if no cleaning list has missed a copy, a
      source that is gone, deleted or no longer annotated has no live copy left. */
  lemma QuiescentMeansCleanedUp(cfg: Config, ss: seq<State>, ms: seq<Move>, i: nat, sk: Key, k: Key)
    requires IsListedRun(cfg, ss, ms) && i < |ss| && CleansFully(cfg, ss, ms, i) && AtRest(ss[i])
    requires sk in ss[i].store ==> ss[i].store[sk].obj.deleting || !cfg.ks.IsSource(ss[i].store[sk].obj)
    ensures !LiveCopyAt(cfg.ks, ss[i], k, sk)
  {
    AlwaysAttended(cfg, ss, ms, i, sk);
    RunTends(cfg, ss, ms, i);
    assert LiveCopyAt(cfg.ks, ss[i], k, sk) ==> Guarded(cfg.ks, ss[i], sk);
  }

  /** Over all runs: at rest a live source with a readable selector has no live copy out of
      place, and its finalizers are migrated. */
  lemma QuiescentMeansNoStrays(cfg: Config, ss: seq<State>, ms: seq<Move>, i: nat, sk: Key)
    requires IsListedRun(cfg, ss, ms) && i < |ss| && AtRest(ss[i])
    requires sk in ss[i].store && cfg.ks.IsSource(ss[i].store[sk].obj) && !ss[i].store[sk].obj.deleting
    requires cfg.parse(SelectorText(cfg.ks, ss[i].store[sk].obj)).Some?
    ensures Current(cfg, ss[i], sk, ss[i].store[sk].obj)
    ensures forall k :: LiveCopyAt(cfg.ks, ss[i], k, sk) ==> k.name == sk.name && Wants(cfg, ss[i], sk, k.ns)
  {
    AlwaysAttended(cfg, ss, ms, i, sk);
    ListedGivesInv(cfg, ss, ms, i);
    forall k | LiveCopyAt(cfg.ks, ss[i], k, sk) ensures k.name == sk.name {
      assert ObjOk(cfg.ks, k, ss[i].store[k].obj);
    }
  }

  // ------------------------------------------------------- one wanted copy at a time

  /** What upsertCopy may adopt: an unmanaged object left by config-syncer. */
  predicate AdoptableAt(ks: KeySet, s: State, k: Key) {
    k in s.store && !ks.IsManagedCopy(s.store[k].obj) && IsAdoptable(s.store[k].obj)
  }

  /** While namespace ns is wanted, its key holds nothing but a copy of sk or an object to adopt. */
  predicate Unblocked(cfg: Config, s: State, sk: Key, ns: string) {
    var k := CopyKey(sk, ns);
    Wants(cfg, s, sk, ns) && k in s.store ==> CopyAt(cfg.ks, s, k, sk) || AdoptableAt(cfg.ks, s, k)
  }

  /** An object that does not block the key of a copy of sk. */
  predicate Usable(ks: KeySet, sk: Key, o: Obj) {
    ks.CopyOrigin(o) == Some(sk) || (!ks.IsManagedCopy(o) && IsAdoptable(o))
  }

  /** While ns is wanted, its worker sees no blocker at its key, not even one gone since, and
      never overlooks an object to adopt. */
  predicate SeesFree(cfg: Config, s: State, m: Move, sk: Key, ns: string) {
    m.Look? && m.sk == sk && m.ns == ns && Wants(cfg, s, sk, ns) ==>
      && (m.seen.Some? ==> Usable(cfg.ks, sk, m.seen.value.obj))
      && (m.seen != CellAt(s, CopyKey(sk, ns)) ==> !AdoptableAt(cfg.ks, s, CopyKey(sk, ns)))
  }

  /** While ns is wanted, users create nothing at its key and strip no stamp there. */
  predicate Considerate(cfg: Config, s: State, m: Move, sk: Key, ns: string) {
    m.UserPut? && m.k == CopyKey(sk, ns) && Wants(cfg, s, sk, ns) ==>
      m.k in s.store && (cfg.ks.IsManagedCopy(s.store[m.k].obj) ==> cfg.ks.IsManagedCopy(m.obj))
  }

  /** A worker past namespace ns has left the copy there. */
  predicate PhaseFills(cfg: Config, s: State, sk: Key, ns: string, p: Phase) {
    match p
    case Placing(o, targets, todo) => ns in targets && ns !in todo ==> PlacedAt(cfg.ks, s, sk, o, ns)
    case Writing(o, targets, todo, at, got) =>
      && (ns in targets && ns !in todo && ns != at ==> PlacedAt(cfg.ks, s, sk, o, ns))
      && (ns == at && got.None? ==> CopyKey(sk, ns) !in s.store)
    case Sweeping(o, _, keep, _, _, _) => keep.Some? && ns in keep.value ==> PlacedAt(cfg.ks, s, sk, o, ns)
    case _ => true
  }

  predicate Filled(cfg: Config, s: State, sk: Key, ns: string) {
    !Due(s, sk) ==>
      if sk in s.working then PhaseFills(cfg, s, sk, ns, s.working[sk])
      else Wants(cfg, s, sk, ns) ==> PlacedAt(cfg.ks, s, sk, s.store[sk].obj, ns)
  }

  /** No write turns a managed copy into an unmanaged object, unless a user does. */
  lemma WriteKeepsManaged(cfg: Config, s: State, m: Move)
    requires Inv(cfg, s) && Enabled(cfg, s, m) && !m.UserPut? && Written(cfg, s, m).Some?
    requires ManagedAt(cfg.ks, s, Written(cfg, s, m).value.0)
    ensures cfg.ks.IsManagedCopy(Written(cfg, s, m).value.1)
  {
    hide Inv;
    hide Written;
    if m.Write? {
      CopyWriteIsGood(cfg, s, m);
    } else {
      WriteKinds(cfg, s, m);
    }
  }

  lemma PlacedIsCopy(ks: KeySet, s: State, sk: Key, src: Obj, ns: string)
    requires ks.Sound() && sk.ns != "" && sk.name != "" && PlacedAt(ks, s, sk, src, ns)
    ensures CopyAt(ks, s, CopyKey(sk, ns), sk)
  {
    WrittenCopyIsRecognised(ks, sk, src, s.store[CopyKey(sk, ns)].obj, "");
  }

  /** Any write over a copy that leaves it managed wakes its source. */
  lemma CopyWriteWakes(cfg: Config, s: State, m: Move, sk: Key, k: Key)
    requires Inv(cfg, s) && Enabled(cfg, s, m) && CopyAt(cfg.ks, s, k, sk)
    requires Written(cfg, s, m).Some? && Written(cfg, s, m).value.0 == k
    requires cfg.ks.IsManagedCopy(Written(cfg, s, m).value.1)
    ensures sk in Effect(cfg, s, m).queue
  {
    hide Inv;
    hide Written;
    EveryWriteIsGood(cfg, s, m);
    assert cfg.ks.CopyOrigin(Written(cfg, s, m).value.1) == Some(sk);
  }

  lemma StaysManaged(cfg: Config, s: State, m: Move, sk: Key, ns: string)
    requires Inv(cfg, s) && Enabled(cfg, s, m) && Considerate(cfg, s, m, sk, ns) && Wants(cfg, s, sk, ns)
    requires ManagedAt(cfg.ks, s, CopyKey(sk, ns))
    requires Written(cfg, s, m).Some? && Written(cfg, s, m).value.0 == CopyKey(sk, ns)
    ensures cfg.ks.IsManagedCopy(Written(cfg, s, m).value.1)
  {
    hide Inv;
    hide Wants;
    if !m.UserPut? {
      hide Written;
      WriteKeepsManaged(cfg, s, m);
    }
  }

  /** A copy in a wanted place survives any move that does not wake its source. */
  lemma SilentKeepsCopy(cfg: Config, s: State, m: Move, sk: Key, ns: string)
    requires Inv(cfg, s) && Enabled(cfg, s, m) && Considerate(cfg, s, m, sk, ns) && Wants(cfg, s, sk, ns)
    requires CopyAt(cfg.ks, s, CopyKey(sk, ns), sk) && sk !in Effect(cfg, s, m).queue
    ensures ObjAt(Effect(cfg, s, m), CopyKey(sk, ns)) == ObjAt(s, CopyKey(sk, ns))
  {
    hide Inv;
    hide Wants;
    hide Considerate;
    hide Written;
    var k := CopyKey(sk, ns);
    if Written(cfg, s, m).Some? && Written(cfg, s, m).value.0 == k {
      StaysManaged(cfg, s, m, sk, ns);
      CopyWriteWakes(cfg, s, m, sk, k);
    }
  }

  lemma SilentKeepsPlaced(cfg: Config, s: State, m: Move, sk: Key, src: Obj, ns: string)
    requires Inv(cfg, s) && Enabled(cfg, s, m) && Considerate(cfg, s, m, sk, ns) && Wants(cfg, s, sk, ns)
    requires sk.ns != "" && sk.name != "" && PlacedAt(cfg.ks, s, sk, src, ns) && sk !in Effect(cfg, s, m).queue
    ensures PlacedAt(cfg.ks, Effect(cfg, s, m), sk, src, ns)
  {
    PlacedIsCopy(cfg.ks, s, sk, src, ns);
    SilentKeepsCopy(cfg, s, m, sk, ns);
  }

  lemma OthersWriteElsewhere(cfg: Config, s: State, m: Move, sk: Key, ns: string)
    requires Inv(cfg, s) && m.Write? && InPhase(cfg, s, m) && m.sk != sk
    requires Wants(cfg, s, sk, ns) && CopyKey(sk, ns) != sk && Unblocked(cfg, Effect(cfg, s, m), sk, ns)
    requires Written(cfg, s, m).Some? && Written(cfg, s, m).value.0 == CopyKey(sk, ns)
    ensures CopyKey(sk, ns) !in Effect(cfg, s, m).store
  {
    hide Inv;
    hide Written;
    hide Wants;
    hide Unblocked;
    CopyWriteIsGood(cfg, s, m);
    OthersCopyBlocks(cfg, s, Effect(cfg, s, m), sk, ns, m.sk);
  }

  /** Nobody else fills a wanted key found free: users create nothing there, and another
      source's copy would block it. */
  lemma NobodyFills(cfg: Config, s: State, m: Move, sk: Key, ns: string)
    requires Inv(cfg, s) && Enabled(cfg, s, m) && Considerate(cfg, s, m, sk, ns) && !IsMover(m, sk)
    requires Wants(cfg, s, sk, ns) && CopyKey(sk, ns) !in s.store && CopyKey(sk, ns) != sk
    requires Unblocked(cfg, Effect(cfg, s, m), sk, ns)
    ensures CopyKey(sk, ns) !in Effect(cfg, s, m).store
  {
    hide Inv;
    hide PhaseOk;
    hide Wants;
    hide Unblocked;
    if Written(cfg, s, m).Some? && Written(cfg, s, m).value.0 == CopyKey(sk, ns) {
      if m.Write? {
        hide Written;
        hide Effect;
        OthersWriteElsewhere(cfg, s, m, sk, ns);
      } else if !m.UserPut? {
        hide Written;
        WriteKinds(cfg, s, m);
      }
    } else {
      hide Written;
    }
  }

  lemma OthersCopyBlocks(cfg: Config, s: State, t: State, sk: Key, ns: string, other: Key)
    requires Wants(cfg, s, sk, ns) && ObjAt(t, sk) == ObjAt(s, sk) && t.namespaces == s.namespaces
    requires Unblocked(cfg, t, sk, ns) && other != sk
    ensures !CopyAt(cfg.ks, t, CopyKey(sk, ns), other)
  {
    hide BranchOf;
    hide Targets;
  }

  // ------------------------------------------------------- the worker and one key

  lemma KeptIsPlaced(ks: KeySet, s: State, sk: Key, src: Obj, ns: string)
    requires StoreOk(ks, s) && sk.ns != "" && sk.name != ""
    requires CopyAt(ks, s, CopyKey(sk, ns), sk)
    requires !Judge(ks, sk, src, ObjAt(s, CopyKey(sk, ns)), "").Writes()
    ensures PlacedAt(ks, s, sk, src, ns)
  {
    var e := s.store[CopyKey(sk, ns)].obj;
    assert ObjOk(ks, CopyKey(sk, ns), e);
    OwnerReadingsAgree(ks, e, sk);
  }

  /** A wanted key that needs no write holds the copy already: nothing else can be there. */
  lemma LookedIsPlaced(cfg: Config, s: State, sk: Key, o: Obj, ns: string)
    requires StoreOk(cfg.ks, s) && Unblocked(cfg, s, sk, ns) && Wants(cfg, s, sk, ns) && sk.ns != "" && sk.name != ""
    requires !Judge(cfg.ks, sk, o, ObjAt(s, CopyKey(sk, ns)), "").Writes()
    ensures PlacedAt(cfg.ks, s, sk, o, ns)
  {
    hide StoreOk;
    hide Wants;
    if CopyAt(cfg.ks, s, CopyKey(sk, ns), sk) {
      KeptIsPlaced(cfg.ks, s, sk, o, ns);
    }
  }

  /** Out of date about a copy, and not misled: the copy is neither there nor was seen. */
  lemma OvertakenLook(cfg: Config, s: State, m: Move, ns: string)
    requires m.Look? && InPhase(cfg, s, m) && m.ns == ns && !Misled(cfg, s, m) && m.seen != CellAt(s, CopyKey(m.sk, ns))
    ensures !CopyAt(cfg.ks, s, CopyKey(m.sk, ns), m.sk)
    ensures CopyKey(m.sk, ns) !in s.store ==> cfg.ks.CopyOrigin(m.seen.value.obj) != Some(m.sk)
  {
    hide InPhase;
  }

  /** A worker that looks at a wanted, unblocked key and sees it free sees it as it is. */
  lemma LooksTruly(cfg: Config, s: State, m: Move, ns: string)
    requires m.Look? && InPhase(cfg, s, m) && m.ns == ns && !Misled(cfg, s, m) && Wants(cfg, s, m.sk, ns)
    requires Unblocked(cfg, s, m.sk, ns) && SeesFree(cfg, s, m, m.sk, ns)
    ensures m.seen == CellAt(s, CopyKey(m.sk, ns))
         || (CopyKey(m.sk, ns) !in s.store && !cfg.ks.IsManagedCopy(m.seen.value.obj) && IsAdoptable(m.seen.value.obj))
  {
    hide Wants;
    hide InPhase;
    if m.seen != CellAt(s, CopyKey(m.sk, ns)) {
      OvertakenLook(cfg, s, m, ns);
    }
    hide Misled;
    hide CopyAt;
  }

  lemma AdoptableIsWritten(ks: KeySet, sk: Key, src: Obj, o: Obj)
    requires !ks.IsManagedCopy(o) && IsAdoptable(o)
    ensures Judge(ks, sk, src, Some(o), "").Writes()
  {
  }

  lemma LookFills(cfg: Config, s: State, m: Move, ns: string)
    requires StoreOk(cfg.ks, s) && m.Look? && InPhase(cfg, s, m) && NextOf(cfg, s, m).Go? && !Misled(cfg, s, m)
    requires m.sk.ns != "" && m.sk.name != ""
    requires PhaseCurrent(cfg, s, m.sk, s.working[m.sk]) && PhaseFills(cfg, s, m.sk, ns, s.working[m.sk])
    requires s.working[m.sk].todo <= s.working[m.sk].targets
    requires Unblocked(cfg, s, m.sk, ns) && SeesFree(cfg, s, m, m.sk, ns)
    ensures PhaseFills(cfg, s, m.sk, ns, NextOf(cfg, s, m).phase)
  {
    var o := s.working[m.sk].obj;
    hide StoreOk;
    hide Misled;
    hide Unblocked;
    hide SeesFree;
    hide PlacedAt;
    if ns == m.ns {
      AimingWants(cfg, s, m.sk, s.working[m.sk], ns);
      LooksTruly(cfg, s, m, ns);
      if m.seen == CellAt(s, CopyKey(m.sk, ns)) {
        if !Judge(cfg.ks, m.sk, o, ObjAt(s, CopyKey(m.sk, ns)), "").Writes() {
          LookedIsPlaced(cfg, s, m.sk, o, ns);
        }
      } else {
        AdoptableIsWritten(cfg.ks, m.sk, o, m.seen.value.obj);
      }
    }
    hide PhaseCurrent;
    hide Judge;
    hide IsAdoptable;
  }

  /** A write that succeeds, by a worker that found the key free or as it still is, wakes its
      source. */
  lemma WriteWakes(cfg: Config, s: State, m: Move)
    requires Inv(cfg, s) && m.Write? && InPhase(cfg, s, m) && NextOf(cfg, s, m).Go?
    requires PhaseFills(cfg, s, m.sk, s.working[m.sk].ns, s.working[m.sk])
    ensures m.sk in Effect(cfg, s, m).queue
  {
    WriteGoesThrough(cfg, s, m);
    hide Inv;
    hide Written;
    CopyWriteIsGood(cfg, s, m);
  }

  lemma WriteGoesThrough(cfg: Config, s: State, m: Move)
    requires m.Write? && InPhase(cfg, s, m) && NextOf(cfg, s, m).Go?
    requires PhaseFills(cfg, s, m.sk, s.working[m.sk].ns, s.working[m.sk])
    ensures Written(cfg, s, m).Some?
  {
  }

  /** What a phase says of ns carries over a move that does not wake the source. */
  lemma SilentPhaseFills(cfg: Config, s: State, m: Move, sk: Key, ns: string, p: Phase)
    requires Inv(cfg, s) && Enabled(cfg, s, m) && Considerate(cfg, s, m, sk, ns) && sk !in Effect(cfg, s, m).queue
    requires PhaseOk(cfg.ks, s, sk, p) && PhaseCurrent(cfg, s, sk, p) && PhaseFills(cfg, s, sk, ns, p)
    requires p.Writing? && p.ns == ns && p.got.None? ==> CopyKey(sk, ns) !in Effect(cfg, s, m).store
    ensures PhaseFills(cfg, Effect(cfg, s, m), sk, ns, p)
  {
    hide Inv;
    hide Enabled;
    hide Considerate;
    hide Effect;
    hide PlacedAt;
    if Aimed(p) && ns in Aim(p) && PlacedAt(cfg.ks, s, sk, p.obj, ns) {
      AimingWants(cfg, s, sk, p, ns);
      SilentKeepsPlaced(cfg, s, m, sk, p.obj, ns);
    }
    hide PhaseOk;
  }

  predicate Aimed(p: Phase) {
    p.Placing? || p.Writing? || (p.Sweeping? && p.keep.Some?)
  }

  function Aim(p: Phase): set<string>
    requires Aimed(p)
  {
    if p.Sweeping? then p.keep.value else p.targets
  }

  lemma AimingWants(cfg: Config, s: State, sk: Key, p: Phase, ns: string)
    requires Aimed(p) && ns in Aim(p) && PhaseCurrent(cfg, s, sk, p)
    ensures Wants(cfg, s, sk, ns) && Current(cfg, s, sk, p.obj)
  {
  }

  lemma NextFills(cfg: Config, s: State, t: State, m: Move, ns: string)
    requires InPhaseOf(cfg, s, m) && !m.Start? && !m.Look? && NextOf(cfg, s, m).Go?
    requires PhaseFills(cfg, t, m.sk, ns, s.working[m.sk])
    requires m.Write? ==> s.working[m.sk].ns != ns
    ensures PhaseFills(cfg, t, m.sk, ns, NextOf(cfg, s, m).phase)
  {
    hide PlacedAt;
    hide Targets;
  }

  lemma PlacingIsOrdered(ks: KeySet, s: State, sk: Key, p: Phase)
    requires PhaseOk(ks, s, sk, p)
    ensures sk.ns != "" && sk.name != "" && (p.Placing? ==> p.todo <= p.targets)
  {
  }

  lemma MoverGoesOnFilling(cfg: Config, s: State, m: Move, ns: string)
    requires Inv(cfg, s) && InPhaseOf(cfg, s, m) && !m.Start? && NextOf(cfg, s, m).Go?
    requires PhaseCurrent(cfg, s, m.sk, s.working[m.sk]) && PhaseFills(cfg, s, m.sk, ns, s.working[m.sk])
    requires Unblocked(cfg, s, m.sk, ns) && Considerate(cfg, s, m, m.sk, ns) && SeesFree(cfg, s, m, m.sk, ns)
    requires m.sk !in Effect(cfg, s, m).queue && !Misled(cfg, s, m) && ReadsTruly(cfg, s, m)
    ensures PhaseFills(cfg, Effect(cfg, s, m), m.sk, ns, NextOf(cfg, s, m).phase)
  {
    hide Misled;
    hide ReadsTruly;
    hide SeesFree;
    var p := s.working[m.sk];
    assert PhaseOk(cfg.ks, s, m.sk, p) && StoreOk(cfg.ks, s);
    hide Inv;
    hide PhaseOk;
    hide StoreOk;
    hide PhaseCurrent;
    hide PhaseFills;
    hide Effect;
    hide NextOf;
    hide Unblocked;
    PlacingIsOrdered(cfg.ks, s, m.sk, p);
    if m.Look? {
      ReadEffect(cfg, s, m);
      LookFills(cfg, s, m, ns);
    } else if m.Write? && p.ns == ns {
      WriteWakes(cfg, s, m);
    } else {
      WritingPhase(cfg, s, m);
      SilentPhaseFills(cfg, s, m, m.sk, ns, p);
      NextFills(cfg, s, Effect(cfg, s, m), m, ns);
    }
  }

  lemma WritingPhase(cfg: Config, s: State, m: Move)
    requires InPhaseOf(cfg, s, m) && !m.Start?
    ensures s.working[m.sk].Writing? <==> m.Write?
  {
  }

  lemma MoverRestsFilled(cfg: Config, s: State, m: Move, ns: string)
    requires Inv(cfg, s) && InPhaseOf(cfg, s, m) && !m.Start? && NextOf(cfg, s, m).Rest?
    requires PhaseCurrent(cfg, s, m.sk, s.working[m.sk]) && PhaseFills(cfg, s, m.sk, ns, s.working[m.sk])
    requires m.sk !in Effect(cfg, s, m).queue && ReadsTruly(cfg, s, m)
    ensures Wants(cfg, Effect(cfg, s, m), m.sk, ns) ==>
              PlacedAt(cfg.ks, Effect(cfg, s, m), m.sk, Effect(cfg, s, m).store[m.sk].obj, ns)
  {
    hide Inv;
    hide PlacedAt;
    RestsAfter(cfg, s, m);
    if m.Fix? {
      FixLeavesNone(cfg, s, m);
    } else if m.Release? {
      ReleasedIsNothing(cfg, s, m);
      hide Effect;
    } else if m.ListNamespaces? {
      ListingGoesOn(cfg, s, m);
    } else {
      ReadEffect(cfg, s, m);
      hide Effect;
    }
  }

  lemma BystanderFills(cfg: Config, s: State, m: Move, sk: Key, ns: string)
    requires Inv(cfg, s) && Enabled(cfg, s, m) && !IsMover(m, sk) && sk !in Effect(cfg, s, m).queue
    requires Attended(cfg, s, sk) && Filled(cfg, s, sk, ns) && !Due(s, sk)
    requires Considerate(cfg, s, m, sk, ns) && Unblocked(cfg, Effect(cfg, s, m), sk, ns)
    ensures if sk in s.working then PhaseFills(cfg, Effect(cfg, s, m), sk, ns, s.working[sk])
            else Wants(cfg, Effect(cfg, s, m), sk, ns) ==>
                   PlacedAt(cfg.ks, Effect(cfg, s, m), sk, Effect(cfg, s, m).store[sk].obj, ns)
  {
    if sk in s.working {
      WorkerFills(cfg, s, m, sk, ns);
    } else {
      SilentEffect(cfg, s, m, sk);
      RestingFills(cfg, s, m, sk, ns);
    }
  }

  lemma WorkerFills(cfg: Config, s: State, m: Move, sk: Key, ns: string)
    requires Inv(cfg, s) && Enabled(cfg, s, m) && !IsMover(m, sk) && sk !in Effect(cfg, s, m).queue
    requires sk in s.working && PhaseCurrent(cfg, s, sk, s.working[sk]) && PhaseFills(cfg, s, sk, ns, s.working[sk])
    requires Considerate(cfg, s, m, sk, ns) && Unblocked(cfg, Effect(cfg, s, m), sk, ns)
    ensures PhaseFills(cfg, Effect(cfg, s, m), sk, ns, s.working[sk])
  {
    var p := s.working[sk];
    assert PhaseOk(cfg.ks, s, sk, p);
    if p.Writing? && p.ns == ns && p.got.None? {
      TargetsAreElsewhere(cfg, s, sk, p);
      AimingWants(cfg, s, sk, p, ns);
      hide Inv;
      hide PhaseOk;
      hide Wants;
      NobodyFills(cfg, s, m, sk, ns);
    }
    hide Inv;
    hide PhaseOk;
    hide PhaseCurrent;
    SilentPhaseFills(cfg, s, m, sk, ns, p);
  }

  lemma TargetsAreElsewhere(cfg: Config, s: State, sk: Key, p: Phase)
    requires p.Writing? && PhaseOk(cfg.ks, s, sk, p) && PhaseCurrent(cfg, s, sk, p)
    ensures p.ns in p.targets && CopyKey(sk, p.ns) != sk
  {
  }

  /** A source at rest with its copy in place still has it, and wants no more than before. */
  lemma RestingFills(cfg: Config, s: State, m: Move, sk: Key, ns: string)
    requires Inv(cfg, s) && Enabled(cfg, s, m) && sk !in Effect(cfg, s, m).queue
    requires Wants(cfg, s, sk, ns) ==> PlacedAt(cfg.ks, s, sk, s.store[sk].obj, ns)
    requires Undisturbed(cfg.ks, s, Effect(cfg, s, m), sk) && Considerate(cfg, s, m, sk, ns)
    ensures Wants(cfg, Effect(cfg, s, m), sk, ns) ==>
              PlacedAt(cfg.ks, Effect(cfg, s, m), sk, Effect(cfg, s, m).store[sk].obj, ns)
  {
    if Wants(cfg, Effect(cfg, s, m), sk, ns) {
      WantedBefore(cfg, s, Effect(cfg, s, m), sk, ns);
      StoredOk(cfg.ks, s, sk);
      SourceIsNamed(cfg, s, sk);
      hide Inv;
      hide Wants;
      hide PlacedAt;
      hide Effect;
      SilentKeepsPlaced(cfg, s, m, sk, s.store[sk].obj, ns);
    }
  }

  lemma SourceIsNamed(cfg: Config, s: State, sk: Key)
    requires sk in s.store && ObjOk(cfg.ks, sk, s.store[sk].obj) && BranchOf(cfg, Some(s.store[sk].obj)).Replicate?
    ensures sk.ns != "" && sk.name != ""
  {
  }

  lemma WantedBefore(cfg: Config, s: State, t: State, sk: Key, ns: string)
    requires Undisturbed(cfg.ks, s, t, sk) && Wants(cfg, t, sk, ns)
    ensures Wants(cfg, s, sk, ns) && ObjAt(t, sk) == ObjAt(s, sk)
  {
    if sk in t.store && !cfg.ks.IsSource(t.store[sk].obj) {
      NonSourcesDoNotReplicate(cfg, t, sk);
    }
    hide BranchOf;
    hide Targets;
  }

  lemma StartFillsNow(cfg: Config, s: State, m: Move, ns: string)
    requires m.Start? && InPhase(cfg, s, m) && m.seen == CellAt(s, m.sk)
    ensures NextOf(cfg, s, m).Rest? ==> !Wants(cfg, s, m.sk, ns)
  {
    hide Targets;
  }

  /** A worker that does not start, and will not be woken again, has nothing to place. */
  lemma StartWantsNothing(cfg: Config, s: State, m: Move, ns: string)
    requires Inv(cfg, s) && m.Start? && InPhase(cfg, s, m) && ReadsTruly(cfg, s, m) && !Misled(cfg, s, m)
    ensures NextOf(cfg, s, m).Rest? ==> !Wants(cfg, s, m.sk, ns)
  {
    if m.seen == CellAt(s, m.sk) {
      StartFillsNow(cfg, s, m, ns);
    } else {
      OvertakenStart(cfg, s, m);
      if m.sk in s.store {
        NonSourcesDoNotReplicate(cfg, s, m.sk);
      }
    }
    hide Inv;
    hide ReadsTruly;
    hide Misled;
    hide NextOf;
    hide BranchOf;
    hide Targets;
  }

  lemma StartFills(cfg: Config, s: State, m: Move, ns: string)
    requires m.Start? && InPhase(cfg, s, m) && NextOf(cfg, s, m).Go?
    ensures PhaseFills(cfg, s, m.sk, ns, NextOf(cfg, s, m).phase)
  {
    StartPhases(cfg, s, m);
    hide NextOf;
  }

  lemma MoverFills(cfg: Config, s: State, m: Move, ns: string)
    requires Inv(cfg, s) && InPhaseOf(cfg, s, m) && ReadsTruly(cfg, s, m) && !NextOf(cfg, s, m).Retry? && !Misled(cfg, s, m)
    requires !m.Start? ==>
               && PhaseCurrent(cfg, s, m.sk, s.working[m.sk]) && PhaseFills(cfg, s, m.sk, ns, s.working[m.sk])
               && m.sk !in Effect(cfg, s, m).queue
    requires Unblocked(cfg, s, m.sk, ns) && Considerate(cfg, s, m, m.sk, ns) && SeesFree(cfg, s, m, m.sk, ns)
    ensures NextOf(cfg, s, m).Go? ==> PhaseFills(cfg, Effect(cfg, s, m), m.sk, ns, NextOf(cfg, s, m).phase)
    ensures NextOf(cfg, s, m).Rest? ==> Wants(cfg, Effect(cfg, s, m), m.sk, ns) ==>
              PlacedAt(cfg.ks, Effect(cfg, s, m), m.sk, Effect(cfg, s, m).store[m.sk].obj, ns)
  {
    hide Inv;
    hide PhaseCurrent;
    hide PhaseFills;
    hide Unblocked;
    hide Considerate;
    hide SeesFree;
    hide ReadsTruly;
    hide Misled;
    hide Effect;
    hide Wants;
    hide PlacedAt;
    if m.Start? {
      ReadEffect(cfg, s, m);
      if NextOf(cfg, s, m).Go? {
        StartFills(cfg, s, m, ns);
      } else {
        StartWantsNothing(cfg, s, m, ns);
      }
    } else if NextOf(cfg, s, m).Go? {
      MoverGoesOnFilling(cfg, s, m, ns);
    } else {
      MoverRestsFilled(cfg, s, m, ns);
    }
  }

  lemma EffectOfNamespaces(cfg: Config, s: State, m: Move)
    requires m.ChangeNamespaces?
    ensures Effect(cfg, s, m) == s
  {
  }

  lemma RestartFills(cfg: Config, s: State, m: Move, sk: Key, ns: string)
    requires m.Restart? && !Due(Apply(cfg, s, m), sk)
    ensures Filled(cfg, Apply(cfg, s, m), sk, ns)
  {
    RelistedSettled(cfg, s, sk);
    if sk in s.store {
      NonSourcesDoNotReplicate(cfg, s, sk);
    }
  }

  /** What is said of one wanted key looks only at the store. */
  lemma SameFills(cfg: Config, t: State, u: State, sk: Key, ns: string, p: Phase)
    requires u.store == t.store
    ensures PhaseFills(cfg, t, sk, ns, p) ==> PhaseFills(cfg, u, sk, ns, p)
  {
    SameStoreView(cfg.ks, t, u, sk);
    hide PlacedAt;
  }

  lemma SameBlock(cfg: Config, t: State, u: State, sk: Key, ns: string)
    requires u.store == t.store && u.namespaces == t.namespaces
    ensures Unblocked(cfg, u, sk, ns) <==> Unblocked(cfg, t, sk, ns)
  {
  }

  lemma EffectUnblocked(cfg: Config, s: State, m: Move, sk: Key, ns: string)
    requires Movable(cfg, s, m)
    requires Unblocked(cfg, s, sk, ns) && Unblocked(cfg, Apply(cfg, s, m), sk, ns)
    requires Apply(cfg, s, m).store == Effect(cfg, s, m).store
    requires !m.ChangeNamespaces? ==> Apply(cfg, s, m).namespaces == Effect(cfg, s, m).namespaces
    ensures Unblocked(cfg, Effect(cfg, s, m), sk, ns)
  {
    hide Apply;
    hide Unblocked;
    if m.ChangeNamespaces? {
      EffectOfNamespaces(cfg, s, m);
    } else {
      SameBlock(cfg, Effect(cfg, s, m), Apply(cfg, s, m), sk, ns);
    }
  }

  lemma StepFills(cfg: Config, s: State, m: Move, sk: Key, ns: string)
    requires Inv(cfg, s) && Enabled(cfg, s, m) && Attended(cfg, s, sk) && Filled(cfg, s, sk, ns)
    requires Considerate(cfg, s, m, sk, ns) && SeesFree(cfg, s, m, sk, ns)
    requires Unblocked(cfg, s, sk, ns) && Unblocked(cfg, Apply(cfg, s, m), sk, ns)
    ensures Filled(cfg, Apply(cfg, s, m), sk, ns)
  {
    hide Considerate;
    hide SeesFree;
    hide Unblocked;
    hide Attended;
    hide Filled;
    if m.Restart? {
      if !Due(Apply(cfg, s, m), sk) {
        RestartFills(cfg, s, m, sk, ns);
      } else {
        DueIsFilled(cfg, Apply(cfg, s, m), sk, ns);
      }
    } else if !Due(Apply(cfg, s, m), sk) {
      ApplyStore(cfg, s, m);
      ApplyQueue(cfg, s, m, sk);
      ApplyWorking(cfg, s, m, sk);
      ApplyMoverPhase(cfg, s, m, sk);
      EffectUnblocked(cfg, s, m, sk, ns);
      if m.ChangeNamespaces? { EffectOfNamespaces(cfg, s, m); }
      UnwokenStepFills(cfg, s, m, sk, ns);
    } else {
      DueIsFilled(cfg, Apply(cfg, s, m), sk, ns);
    }
  }

  lemma DueIsFilled(cfg: Config, s: State, sk: Key, ns: string)
    requires Due(s, sk)
    ensures Filled(cfg, s, sk, ns) && Freshened(cfg, s, sk, ns) && Attended(cfg, s, sk)
  {
  }

  lemma UnwokenStepFills(cfg: Config, s: State, m: Move, sk: Key, ns: string)
    requires Inv(cfg, s) && Enabled(cfg, s, m) && Attended(cfg, s, sk) && Filled(cfg, s, sk, ns)
    requires Considerate(cfg, s, m, sk, ns) && SeesFree(cfg, s, m, sk, ns)
    requires Unblocked(cfg, s, sk, ns) && Unblocked(cfg, Effect(cfg, s, m), sk, ns)
    requires !(m.Start? && m.sk == sk) ==> sk !in Effect(cfg, s, m).queue && !Due(s, sk)
    requires Apply(cfg, s, m).store == Effect(cfg, s, m).store
    requires Apply(cfg, s, m).namespaces == Effect(cfg, s, m).namespaces
          || (sk in Effect(cfg, s, m).store ==> !cfg.ks.IsSource(Effect(cfg, s, m).store[sk].obj))
    requires IsMover(m, sk) ==> !NextOf(cfg, s, m).Retry? && !Misled(cfg, s, m)
                                && (sk in Apply(cfg, s, m).working <==> NextOf(cfg, s, m).Go?)
    requires !IsMover(m, sk) ==> (sk in Apply(cfg, s, m).working <==> sk in s.working)
    requires sk in Apply(cfg, s, m).working ==>
               Apply(cfg, s, m).working[sk] == if IsMover(m, sk) then NextOf(cfg, s, m).phase else s.working[sk]
    ensures Filled(cfg, Apply(cfg, s, m), sk, ns)
  {
    hide Inv;
    hide Apply;
    hide Effect;
    hide NextOf;
    hide Misled;
    hide PhaseFills;
    hide PlacedAt;
    hide Unblocked;
    hide Considerate;
    hide SeesFree;
    hide PhaseCurrent;
    hide Settled;
    hide Due;
    if IsMover(m, sk) {
      MoverFills(cfg, s, m, ns);
    } else {
      BystanderFills(cfg, s, m, sk, ns);
    }
    SameView(cfg, Effect(cfg, s, m), Apply(cfg, s, m), sk);
    if sk in Apply(cfg, s, m).working {
      SameFills(cfg, Effect(cfg, s, m), Apply(cfg, s, m), sk, ns, Apply(cfg, s, m).working[sk]);
    }
  }

  // ------------------------------------------------------------------ all runs

  /** From state j of the run on, the key of ns is unblocked, users are considerate there, and
      workers see it free. */
  ghost predicate FreeOfBlockers(cfg: Config, ss: seq<State>, ms: seq<Move>, j: nat, sk: Key, ns: string) {
    && |ss| == |ms| + 1
    && (forall i :: j <= i < |ss| ==> Unblocked(cfg, ss[i], sk, ns))
    && (forall i {:trigger ms[i]} :: j <= i < |ms| ==>
          Considerate(cfg, ss[i], ms[i], sk, ns) && SeesFree(cfg, ss[i], ms[i], sk, ns))
  }

  /** The run starts at state j, or the source is due there. */
  predicate Wakes(ss: seq<State>, j: nat, sk: Key)
    requires j < |ss|
  {
    j == 0 || Due(ss[j], sk)
  }

  lemma RunStepFills(cfg: Config, ss: seq<State>, ms: seq<Move>, i: nat, sk: Key, ns: string)
    requires IsListedRun(cfg, ss, ms) && i + 1 < |ss| && Attended(cfg, ss[i], sk)
    requires Unblocked(cfg, ss[i], sk, ns) && Unblocked(cfg, ss[i + 1], sk, ns)
    requires Considerate(cfg, ss[i], ms[i], sk, ns) && SeesFree(cfg, ss[i], ms[i], sk, ns)
    requires Filled(cfg, ss[i], sk, ns)
    ensures Filled(cfg, ss[i + 1], sk, ns)
  {
    hide Unblocked;
    hide Considerate;
    hide SeesFree;
    hide Filled;
    hide Attended;
    hide Inv;
    hide Enabled;
    hide Apply;
    RunKeepsInv(cfg, ss, ms, i);
    StepFills(cfg, ss[i], ms[i], sk, ns);
  }

  lemma ListedStartFills(cfg: Config, ss: seq<State>, ms: seq<Move>, sk: Key, ns: string)
    requires IsListedRun(cfg, ss, ms)
    ensures |ss| == |ms| + 1 && Filled(cfg, ss[0], sk, ns)
  {
    if !Due(ss[0], sk) {
      RelistedSettled(cfg, ss[0], sk);
      if sk in ss[0].store {
        NonSourcesDoNotReplicate(cfg, ss[0], sk);
      }
    }
  }

  /** Every reachable state keeps: a source without its copy in a wanted place, unblocked since
      the source was last queued, is queued or a worker is on its way there. */
  lemma {:induction false} AlwaysFilled(cfg: Config, ss: seq<State>, ms: seq<Move>, j: nat, i: nat, sk: Key, ns: string)
    requires IsListedRun(cfg, ss, ms) && j <= i < |ss| && Wakes(ss, j, sk) && FreeOfBlockers(cfg, ss, ms, j, sk, ns)
    ensures Filled(cfg, ss[i], sk, ns)
  {
    hide IsListedRun;
    hide Attended;
    hide Unblocked;
    hide Considerate;
    hide SeesFree;
    if i == 0 {
      ListedStartFills(cfg, ss, ms, sk, ns);
    } else if j < i {
      hide Filled;
      AlwaysFilled(cfg, ss, ms, j, i - 1, sk, ns);
      AlwaysAttended(cfg, ss, ms, i - 1, sk);
      RunStepFills(cfg, ss, ms, i - 1, sk, ns);
    }
  }

  /** Quiescence means converged, place by place: with an empty queue and idle workers, a
      source has an up-to-date copy in every namespace it wants whose key has not been blocked
      since the source was last queued, whatever else bears its name elsewhere. */
  lemma QuiescentMeansPlaced(cfg: Config, ss: seq<State>, ms: seq<Move>, j: nat, i: nat, sk: Key, ns: string)
    requires IsListedRun(cfg, ss, ms) && j <= i < |ss| && Wakes(ss, j, sk) && FreeOfBlockers(cfg, ss, ms, j, sk, ns)
    requires AtRest(ss[i]) && Wants(cfg, ss[i], sk, ns)
    ensures PlacedAt(cfg.ks, ss[i], sk, ss[i].store[sk].obj, ns) && CopyAt(cfg.ks, ss[i], CopyKey(sk, ns), sk)
  {
    AlwaysFilled(cfg, ss, ms, j, i, sk, ns);
    ListedGivesInv(cfg, ss, ms, i);
    StoredOk(cfg.ks, ss[i], sk);
    SourceIsNamed(cfg, ss[i], sk);
    PlacedIsCopy(cfg.ks, ss[i], sk, ss[i].store[sk].obj, ns);
  }

  /** All of it together: a live source with a readable selector, none of whose wanted keys
      has been blocked since it was last queued, has exactly its desired copies. */
  lemma QuiescentMeansConverged(cfg: Config, ss: seq<State>, ms: seq<Move>, j: nat, i: nat, sk: Key)
    requires IsListedRun(cfg, ss, ms) && j <= i < |ss| && Wakes(ss, j, sk)
    requires AtRest(ss[i])
    requires sk in ss[i].store && cfg.ks.IsSource(ss[i].store[sk].obj) && !ss[i].store[sk].obj.deleting
    requires cfg.parse(SelectorText(cfg.ks, ss[i].store[sk].obj)).Some?
    requires forall ns :: Wants(cfg, ss[i], sk, ns) ==> FreeOfBlockers(cfg, ss, ms, j, sk, ns)
    ensures var s, src := ss[i], ss[i].store[sk].obj;
            var targets := Targets(cfg, s.namespaces, sk, cfg.parse(SelectorText(cfg.ks, src)).value);
            && (forall ns :: ns in targets ==> PlacedAt(cfg.ks, s, sk, src, ns) && CopyAt(cfg.ks, s, CopyKey(sk, ns), sk))
            && (forall k :: LiveCopyAt(cfg.ks, s, k, sk) ==> k.ns in targets && k.name == sk.name)
  {
    QuiescentMeansNoStrays(cfg, ss, ms, i, sk);
    hide IsListedRun;
    hide FreeOfBlockers;
    forall ns | Wants(cfg, ss[i], sk, ns)
      ensures PlacedAt(cfg.ks, ss[i], sk, ss[i].store[sk].obj, ns) && CopyAt(cfg.ks, ss[i], CopyKey(sk, ns), sk)
    {
      QuiescentMeansPlaced(cfg, ss, ms, j, i, sk, ns);
    }
    hide PlacedAt;
    hide CopyAt;
    hide KeySet.IsSource;
    hide Targets;
  }

  // ---------------------------------------------------------- copies are up to date

  /** If the key of ns holds a copy of sk at all, it is as o would have it. */
  predicate FreshAt(ks: KeySet, s: State, sk: Key, o: Obj, ns: string) {
    CopyAt(ks, s, CopyKey(sk, ns), sk) ==> PlacedAt(ks, s, sk, o, ns)
  }

  /** A worker past namespace ns has left no outdated copy there. */
  predicate PhaseFreshens(cfg: Config, s: State, sk: Key, ns: string, p: Phase) {
    match p
    case Placing(o, targets, todo) => ns in targets && ns !in todo ==> FreshAt(cfg.ks, s, sk, o, ns)
    case Writing(o, targets, todo, at, got) =>
      && (ns in targets && ns !in todo && ns != at ==> FreshAt(cfg.ks, s, sk, o, ns))
      && (ns == at && got.None? ==> !CopyAt(cfg.ks, s, CopyKey(sk, ns), sk))
    case Sweeping(o, _, keep, _, _, _) => keep.Some? && ns in keep.value ==> FreshAt(cfg.ks, s, sk, o, ns)
    case _ => true
  }

  predicate Freshened(cfg: Config, s: State, sk: Key, ns: string) {
    !Due(s, sk) ==>
      if sk in s.working then PhaseFreshens(cfg, s, sk, ns, s.working[sk])
      else Wants(cfg, s, sk, ns) ==> FreshAt(cfg.ks, s, sk, s.store[sk].obj, ns)
  }

  lemma UndisturbedFresh(ks: KeySet, s: State, t: State, sk: Key, o: Obj, ns: string)
    requires Undisturbed(ks, s, t, sk) && FreshAt(ks, s, sk, o, ns)
    ensures FreshAt(ks, t, sk, o, ns)
  {
    if CopyAt(ks, t, CopyKey(sk, ns), sk) {
      assert ObjAt(t, CopyKey(sk, ns)) == ObjAt(s, CopyKey(sk, ns));
    }
  }

  lemma UndisturbedPhaseFresh(cfg: Config, s: State, t: State, sk: Key, ns: string, p: Phase)
    requires Undisturbed(cfg.ks, s, t, sk) && PhaseFreshens(cfg, s, sk, ns, p)
    ensures PhaseFreshens(cfg, t, sk, ns, p)
  {
    if Aimed(p) && FreshAt(cfg.ks, s, sk, p.obj, ns) {
      UndisturbedFresh(cfg.ks, s, t, sk, p.obj, ns);
    }
    UndisturbedAbsence(cfg.ks, s, t, sk, CopyKey(sk, ns));
    hide FreshAt;
    hide Undisturbed;
    hide CopyAt;
  }

  lemma UndisturbedAbsence(ks: KeySet, s: State, t: State, sk: Key, k: Key)
    requires Undisturbed(ks, s, t, sk)
    ensures CopyAt(ks, t, k, sk) ==> CopyAt(ks, s, k, sk)
  {
    if CopyAt(ks, t, k, sk) {
      assert ObjAt(t, k) == ObjAt(s, k);
    }
  }

  lemma LookFreshens(cfg: Config, s: State, m: Move, ns: string)
    requires StoreOk(cfg.ks, s) && m.Look? && InPhase(cfg, s, m) && NextOf(cfg, s, m).Go? && !Misled(cfg, s, m)
    requires m.sk.ns != "" && m.sk.name != "" && PhaseFreshens(cfg, s, m.sk, ns, s.working[m.sk])
    ensures PhaseFreshens(cfg, s, m.sk, ns, NextOf(cfg, s, m).phase)
  {
    var p, k := s.working[m.sk], CopyKey(m.sk, ns);
    hide StoreOk;
    hide Misled;
    if ns == m.ns && m.seen != CellAt(s, k) {
      OvertakenLook(cfg, s, m, ns);
    } else if ns == m.ns && CopyAt(cfg.ks, s, k, m.sk) && !Judge(cfg.ks, m.sk, p.obj, ObjAt(s, k), "").Writes() {
      KeptIsPlaced(cfg.ks, s, m.sk, p.obj, ns);
    }
    hide Judge;
    hide PlacedAt;
  }

  /** A Create that found the key taken left something there that is no copy of sk. */
  lemma UnwokenWriteFoundOther(cfg: Config, s: State, m: Move)
    requires Inv(cfg, s) && m.Write? && InPhase(cfg, s, m) && NextOf(cfg, s, m).Go?
    requires PhaseFreshens(cfg, s, m.sk, s.working[m.sk].ns, s.working[m.sk]) && m.sk !in Effect(cfg, s, m).queue
    ensures !CopyAt(cfg.ks, s, CopyKey(m.sk, s.working[m.sk].ns), m.sk) && Effect(cfg, s, m) == s
  {
    hide Inv;
    hide CopyAt;
    if Written(cfg, s, m).Some? {
      WrittenCopyWakes(cfg, s, m);
    } else {
      FoundTaken(cfg, s, m);
      hide Written;
    }
  }

  lemma FoundTaken(cfg: Config, s: State, m: Move)
    requires m.Write? && InPhase(cfg, s, m) && NextOf(cfg, s, m).Go? && Written(cfg, s, m).None?
    ensures s.working[m.sk].got.None?
  {
  }

  lemma WrittenCopyWakes(cfg: Config, s: State, m: Move)
    requires Inv(cfg, s) && m.Write? && InPhase(cfg, s, m) && Written(cfg, s, m).Some?
    ensures m.sk in Effect(cfg, s, m).queue
  {
    hide Inv;
    hide Written;
    CopyWriteIsGood(cfg, s, m);
  }

  lemma WriteFreshens(cfg: Config, s: State, m: Move, ns: string)
    requires Inv(cfg, s) && Enabled(cfg, s, m) && m.Write? && InPhase(cfg, s, m) && NextOf(cfg, s, m).Go?
    requires PhaseFreshens(cfg, s, m.sk, ns, s.working[m.sk]) && m.sk !in Effect(cfg, s, m).queue
    ensures PhaseFreshens(cfg, Effect(cfg, s, m), m.sk, ns, NextOf(cfg, s, m).phase)
  {
    hide Inv;
    hide Effect;
    hide PlacedAt;
    if ns == s.working[m.sk].ns {
      UnwokenWriteFoundOther(cfg, s, m);
    } else {
      SilentEffect(cfg, s, m, m.sk);
      UndisturbedPhaseFresh(cfg, s, Effect(cfg, s, m), m.sk, ns, s.working[m.sk]);
    }
    hide CopyAt;
    hide Undisturbed;
  }

  lemma NextFreshens(cfg: Config, s: State, t: State, m: Move, ns: string)
    requires InPhaseOf(cfg, s, m) && !m.Start? && !m.Look? && !m.Write? && NextOf(cfg, s, m).Go?
    requires PhaseFreshens(cfg, t, m.sk, ns, s.working[m.sk])
    ensures PhaseFreshens(cfg, t, m.sk, ns, NextOf(cfg, s, m).phase)
  {
    hide FreshAt;
    hide Targets;
  }

  lemma MoverFreshens(cfg: Config, s: State, m: Move, ns: string)
    requires Inv(cfg, s) && InPhaseOf(cfg, s, m) && !m.Start? && !NextOf(cfg, s, m).Retry?
    requires PhaseCurrent(cfg, s, m.sk, s.working[m.sk]) && PhaseFreshens(cfg, s, m.sk, ns, s.working[m.sk])
    requires m.sk !in Effect(cfg, s, m).queue && ReadsTruly(cfg, s, m) && !Misled(cfg, s, m)
    ensures NextOf(cfg, s, m).Go? ==> PhaseFreshens(cfg, Effect(cfg, s, m), m.sk, ns, NextOf(cfg, s, m).phase)
    ensures NextOf(cfg, s, m).Rest? ==> Wants(cfg, Effect(cfg, s, m), m.sk, ns) ==>
              FreshAt(cfg.ks, Effect(cfg, s, m), m.sk, Effect(cfg, s, m).store[m.sk].obj, ns)
  {
    if NextOf(cfg, s, m).Rest? {
      MoverRestsFresh(cfg, s, m, ns);
    } else {
      SilentEffect(cfg, s, m, m.sk);
      assert StoreOk(cfg.ks, s) && PhaseOk(cfg.ks, s, m.sk, s.working[m.sk]);
      PlacingIsOrdered(cfg.ks, s, m.sk, s.working[m.sk]);
      hide Inv;
      hide StoreOk;
      hide PhaseOk;
      hide PhaseCurrent;
      hide PhaseFreshens;
      hide Effect;
      hide NextOf;
      if m.Look? {
        ReadEffect(cfg, s, m);
        LookFreshens(cfg, s, m, ns);
      } else if m.Write? {
        WriteFreshens(cfg, s, m, ns);
      } else {
        UndisturbedPhaseFresh(cfg, s, Effect(cfg, s, m), m.sk, ns, s.working[m.sk]);
        NextFreshens(cfg, s, Effect(cfg, s, m), m, ns);
      }
    }
  }

  lemma MoverRestsFresh(cfg: Config, s: State, m: Move, ns: string)
    requires Inv(cfg, s) && InPhaseOf(cfg, s, m) && !m.Start? && NextOf(cfg, s, m).Rest?
    requires PhaseCurrent(cfg, s, m.sk, s.working[m.sk]) && PhaseFreshens(cfg, s, m.sk, ns, s.working[m.sk])
    requires m.sk !in Effect(cfg, s, m).queue && ReadsTruly(cfg, s, m) && !Misled(cfg, s, m)
    ensures Wants(cfg, Effect(cfg, s, m), m.sk, ns) ==>
              FreshAt(cfg.ks, Effect(cfg, s, m), m.sk, Effect(cfg, s, m).store[m.sk].obj, ns)
  {
    hide Inv;
    hide FreshAt;
    RestsAfter(cfg, s, m);
    if m.Fix? {
      FixLeavesNone(cfg, s, m);
    } else if m.Release? {
      ReleasedIsNothing(cfg, s, m);
      hide Effect;
    } else if m.ListNamespaces? {
      ListingGoesOn(cfg, s, m);
    } else {
      ReadEffect(cfg, s, m);
      hide Effect;
    }
  }

  lemma BystanderFreshens(cfg: Config, s: State, m: Move, sk: Key, ns: string)
    requires Enabled(cfg, s, m) && !IsMover(m, sk) && !Due(s, sk) && sk !in Effect(cfg, s, m).queue
    requires Freshened(cfg, s, sk, ns)
    ensures if sk in s.working then PhaseFreshens(cfg, Effect(cfg, s, m), sk, ns, s.working[sk])
            else Wants(cfg, Effect(cfg, s, m), sk, ns) ==>
                   FreshAt(cfg.ks, Effect(cfg, s, m), sk, Effect(cfg, s, m).store[sk].obj, ns)
  {
    SilentEffect(cfg, s, m, sk);
    hide Effect;
    hide Undisturbed;
    hide FreshAt;
    hide Wants;
    if sk in s.working {
      UndisturbedPhaseFresh(cfg, s, Effect(cfg, s, m), sk, ns, s.working[sk]);
    } else if Wants(cfg, Effect(cfg, s, m), sk, ns) {
      WantedBefore(cfg, s, Effect(cfg, s, m), sk, ns);
      StoredWhenWanted(cfg, s, sk, ns);
      StoredWhenWanted(cfg, Effect(cfg, s, m), sk, ns);
      UndisturbedFresh(cfg.ks, s, Effect(cfg, s, m), sk, s.store[sk].obj, ns);
    }
  }

  lemma StoredWhenWanted(cfg: Config, s: State, sk: Key, ns: string)
    requires Wants(cfg, s, sk, ns)
    ensures sk in s.store
  {
  }

  lemma SameFresh(cfg: Config, t: State, u: State, sk: Key, ns: string)
    requires u.store == t.store
    ensures forall p :: PhaseFreshens(cfg, t, sk, ns, p) ==> PhaseFreshens(cfg, u, sk, ns, p)
    ensures forall o :: FreshAt(cfg.ks, t, sk, o, ns) <==> FreshAt(cfg.ks, u, sk, o, ns)
  {
    SameStoreView(cfg.ks, t, u, sk);
    assert CopyAt(cfg.ks, u, CopyKey(sk, ns), sk) == CopyAt(cfg.ks, t, CopyKey(sk, ns), sk);
    hide PlacedAt;
    hide CopyAt;
  }

  lemma UnwokenStepFreshens(cfg: Config, s: State, m: Move, sk: Key, ns: string)
    requires Inv(cfg, s) && Enabled(cfg, s, m) && Attended(cfg, s, sk) && Freshened(cfg, s, sk, ns)
    requires !(m.Start? && m.sk == sk) ==> sk !in Effect(cfg, s, m).queue && !Due(s, sk)
    requires Apply(cfg, s, m).store == Effect(cfg, s, m).store
    requires Apply(cfg, s, m).namespaces == Effect(cfg, s, m).namespaces
          || (sk in Effect(cfg, s, m).store ==> !cfg.ks.IsSource(Effect(cfg, s, m).store[sk].obj))
    requires IsMover(m, sk) ==> !NextOf(cfg, s, m).Retry? && !Misled(cfg, s, m)
                                && (sk in Apply(cfg, s, m).working <==> NextOf(cfg, s, m).Go?)
    requires !IsMover(m, sk) ==> (sk in Apply(cfg, s, m).working <==> sk in s.working)
    requires sk in Apply(cfg, s, m).working ==>
               Apply(cfg, s, m).working[sk] == if IsMover(m, sk) then NextOf(cfg, s, m).phase else s.working[sk]
    ensures Freshened(cfg, Apply(cfg, s, m), sk, ns)
  {
    hide Inv;
    hide Apply;
    hide Effect;
    hide NextOf;
    hide Misled;
    hide PhaseFreshens;
    hide FreshAt;
    hide PhaseCurrent;
    hide Settled;
    hide Due;
    if !IsMover(m, sk) {
      BystanderFreshens(cfg, s, m, sk, ns);
    } else if m.Start? {
      ReadEffect(cfg, s, m);
      if NextOf(cfg, s, m).Go? {
        StartFreshens(cfg, s, m, ns);
      } else {
        StartWantsNothing(cfg, s, m, ns);
      }
    } else {
      MoverFreshens(cfg, s, m, ns);
    }
    SameView(cfg, Effect(cfg, s, m), Apply(cfg, s, m), sk);
    SameFresh(cfg, Effect(cfg, s, m), Apply(cfg, s, m), sk, ns);
  }

  lemma StartFreshens(cfg: Config, s: State, m: Move, ns: string)
    requires m.Start? && InPhase(cfg, s, m) && NextOf(cfg, s, m).Go?
    ensures PhaseFreshens(cfg, s, m.sk, ns, NextOf(cfg, s, m).phase)
  {
    StartPhases(cfg, s, m);
    hide NextOf;
  }

  lemma RestartFreshens(cfg: Config, s: State, m: Move, sk: Key, ns: string)
    requires m.Restart? && !Due(Apply(cfg, s, m), sk)
    ensures Freshened(cfg, Apply(cfg, s, m), sk, ns)
  {
    RelistedSettled(cfg, s, sk);
    if sk in s.store {
      NonSourcesDoNotReplicate(cfg, s, sk);
    }
  }

  lemma StepFreshens(cfg: Config, s: State, m: Move, sk: Key, ns: string)
    requires Inv(cfg, s) && Enabled(cfg, s, m) && Attended(cfg, s, sk) && Freshened(cfg, s, sk, ns)
    ensures Freshened(cfg, Apply(cfg, s, m), sk, ns)
  {
    hide Attended;
    hide Freshened;
    if Due(Apply(cfg, s, m), sk) {
      DueIsFilled(cfg, Apply(cfg, s, m), sk, ns);
    } else if m.Restart? {
      RestartFreshens(cfg, s, m, sk, ns);
    } else {
      ApplyStore(cfg, s, m);
      ApplyQueue(cfg, s, m, sk);
      ApplyWorking(cfg, s, m, sk);
      ApplyMoverPhase(cfg, s, m, sk);
      if m.ChangeNamespaces? { EffectOfNamespaces(cfg, s, m); }
      UnwokenStepFreshens(cfg, s, m, sk, ns);
    }
  }

  lemma RunStepFreshens(cfg: Config, ss: seq<State>, ms: seq<Move>, i: nat, sk: Key, ns: string)
    requires IsListedRun(cfg, ss, ms) && i + 1 < |ss| && Attended(cfg, ss[i], sk) && Freshened(cfg, ss[i], sk, ns)
    ensures Freshened(cfg, ss[i + 1], sk, ns)
  {
    hide Freshened;
    hide Attended;
    RunKeepsInv(cfg, ss, ms, i);
    StepFreshens(cfg, ss[i], ms[i], sk, ns);
  }

  lemma ListedStartFresh(cfg: Config, ss: seq<State>, ms: seq<Move>, sk: Key, ns: string)
    requires IsListedRun(cfg, ss, ms)
    ensures |ss| == |ms| + 1 && Freshened(cfg, ss[0], sk, ns)
  {
    if !Due(ss[0], sk) {
      RelistedSettled(cfg, ss[0], sk);
      if sk in ss[0].store {
        NonSourcesDoNotReplicate(cfg, ss[0], sk);
      }
    }
  }

  lemma {:induction false} AlwaysFreshened(cfg: Config, ss: seq<State>, ms: seq<Move>, i: nat, sk: Key, ns: string)
    requires IsListedRun(cfg, ss, ms) && i < |ss|
    ensures Freshened(cfg, ss[i], sk, ns)
  {
    hide IsListedRun;
    hide Attended;
    hide Freshened;
    if i == 0 {
      ListedStartFresh(cfg, ss, ms, sk, ns);
    } else {
      AlwaysFreshened(cfg, ss, ms, i - 1, sk, ns);
      AlwaysAttended(cfg, ss, ms, i - 1, sk);
      RunStepFreshens(cfg, ss, ms, i - 1, sk, ns);
    }
  }

  /** Over all runs, whoever competes and whatever users do: at rest a wanted key holds an
      up-to-date copy if and only if it holds a copy of the source at all. Copies may be
      missing, never outdated. */
  lemma QuiescentMeansUpToDate(cfg: Config, ss: seq<State>, ms: seq<Move>, i: nat, sk: Key, ns: string)
    requires IsListedRun(cfg, ss, ms) && i < |ss|
    requires AtRest(ss[i]) && Wants(cfg, ss[i], sk, ns)
    ensures PlacedAt(cfg.ks, ss[i], sk, ss[i].store[sk].obj, ns) <==> CopyAt(cfg.ks, ss[i], CopyKey(sk, ns), sk)
  {
    hide IsListedRun;
    hide ObjOk;
    hide Judge;
    AlwaysFreshened(cfg, ss, ms, i, sk, ns);
    ListedGivesInv(cfg, ss, ms, i);
    StoredOk(cfg.ks, ss[i], sk);
    SourceIsNamed(cfg, ss[i], sk);
    if PlacedAt(cfg.ks, ss[i], sk, ss[i].store[sk].obj, ns) {
      PlacedIsCopy(cfg.ks, ss[i], sk, ss[i].store[sk].obj, ns);
    }
  }
}
