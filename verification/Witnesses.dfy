/** Inputs on which a plausible promise fails: runs that end with an empty queue, idle workers
    and a live source without its copy; one that ends with a copy and no source; a world no
    number of passes settles; a source whose copies carry two marks. */
module Witnesses {
  import opened Objects
  import opened Keys
  import opened KeySets
  import opened Copies
  import opened Reconciling
  import opened Controller
  import opened Safety
  import opened Convergence
  import opened Passes
  import opened Migration
  import opened Signals
  import opened Readings
  import opened TargetClusters

  function Everywhere(text: string): Option<Selector> {
    Some((labels: Labels) => true)
  }

  const Domain := NewKeys("d")
  const Set := KeySet(Domain, [])
  const Cfg := Config(Set, {}, Everywhere, "hub", "")
  const Home := Key("a", "x")
  const There := Key("b", "x")
  const Data := ConfigMap(map[], map[])
  const Source := Obj(map[], map[Domain.syncAnnotation := ""], [Domain.finalizer], false, Data)
  /** Somebody's own object, under the name of the copy. */
  const Stranger := Obj(map[], map[], [], false, Data)
  /** An object left by config-syncer, under the name of the copy. */
  const Leftover := Obj(map[], map[KubedOriginPrefix := "x"], [], false, Data)
  const Spaces: Namespaces := map["b" := NamespaceInfo(map[], false)]

  lemma TheSet()
    ensures Set.Each() == [Domain] && Set.Sound()
    ensures Domain.syncAnnotation != KubedOriginPrefix
  {
    NewKeysApart(Domain, Domain);
    assert Domain.syncAnnotation[0] == 'd';
    assert forall k :: k in Set.Each() ==> k == Domain;
  }

  /** The source replicates everywhere, and neither foreign object is a copy or a source. */
  lemma TheObjects()
    ensures Set.IsSource(Source) && Set.HasFinalizer(Source) && !Set.IsManagedCopy(Source) && Set.Clean(Source.labels)
    ensures Set.MigratedFinalizers(Source.finalizers) == Source.finalizers
    ensures BranchOf(Cfg, Some(Source)).Replicate?
    ensures forall ls :: BranchOf(Cfg, Some(Source)).sel(ls)
    ensures forall o :: o in {Stranger, Leftover} ==>
              !Set.IsSource(o) && !Set.HasFinalizer(o) && !Set.IsManagedCopy(o)
    ensures !IsAdoptable(Stranger) && IsAdoptable(Leftover)
  {
    TheSet();
    assert Domain in Set.Each();
    MigratedFinalizersMeaning(Set, Source.finalizers);
    assert Set.SyncValue(Source.annotations) == Some((Domain.syncAnnotation, ""));
  }

  lemma TheTargets(sel: Selector)
    requires forall ls :: sel(ls)
    ensures Targets(Cfg, Spaces, Home, sel) == {"b"}
  {
  }

  // --------------------------------------------------------------- single moves

  /** The worker of the source is in phase p and the only one. */
  predicate InPhaseOnly(s: State, p: Phase) {
    s.namespaces == Spaces && s.working == map[Home := p]
  }

  predicate Known(s: State, k: Key, o: Obj, v: nat) {
    CellAt(s, k) == Some(Cell(o, v)) && v in s.past && s.past[v] == Event(k, o)
  }

  /** Nothing stands in the way of starting from version v. */
  predicate Startable(s: State, o: Obj, v: nat) {
    s.namespaces == Spaces && s.queue == {Home} && s.working == map[] && Known(s, Home, o, v)
    && (Home in s.started ==> s.started[Home] <= v)
  }

  lemma Starts(s: State, v: nat)
    requires Startable(s, Source, v)
    ensures Enabled(Cfg, s, Start(Home, Some(Cell(Source, v))))
    ensures Apply(Cfg, s, Start(Home, Some(Cell(Source, v))))
         == s.(queue := {}, started := s.started[Home := v], working := map[Home := Listing(Source)])
  {
    TheObjects();
  }

  lemma Lists(s: State)
    requires InPhaseOnly(s, Listing(Source))
    ensures Enabled(Cfg, s, ListNamespaces(Home, Spaces, Ok))
    ensures Apply(Cfg, s, ListNamespaces(Home, Spaces, Ok)) == s.(working := map[Home := Placing(Source, {"b"}, {"b"})])
  {
    TheObjects();
    assert Cfg.parse(SelectorText(Set, Source)).value == BranchOf(Cfg, Some(Source)).sel;
    TheTargets(BranchOf(Cfg, Some(Source)).sel);
  }

  lemma LooksAndRefuses(s: State, v: nat)
    requires InPhaseOnly(s, Placing(Source, {"b"}, {"b"})) && Known(s, There, Stranger, v)
    ensures Enabled(Cfg, s, Look(Home, "b", Some(Cell(Stranger, v)), Ok))
    ensures Apply(Cfg, s, Look(Home, "b", Some(Cell(Stranger, v)), Ok)) == s.(working := map[Home := Placing(Source, {"b"}, {})])
  {
    TheObjects();
    assert {"b"} - {"b"} == {};
    assert CopyKey(Home, "b") == There;
  }

  lemma LooksAndFindsNothing(s: State)
    requires InPhaseOnly(s, Placing(Source, {"b"}, {"b"})) && There !in s.store
    ensures Enabled(Cfg, s, Look(Home, "b", None, Ok))
    ensures Apply(Cfg, s, Look(Home, "b", None, Ok)) == s.(working := map[Home := Writing(Source, {"b"}, {}, "b", None)])
  {
    assert {"b"} - {"b"} == {};
    assert CopyKey(Home, "b") == There;
  }

  /** Create finds the key taken, and the worker goes on as if it had created the copy. */
  lemma FindsItTaken(s: State)
    requires InPhaseOnly(s, Writing(Source, {"b"}, {}, "b", None)) && There in s.store
    ensures Enabled(Cfg, s, Write(Home, Ok))
    ensures Apply(Cfg, s, Write(Home, Ok)) == s.(working := map[Home := Placing(Source, {"b"}, {})])
  {
    assert CopyKey(Home, "b") == There;
  }

  lemma EndsPlacing(s: State)
    requires InPhaseOnly(s, Placing(Source, {"b"}, {}))
    ensures Enabled(Cfg, s, EndPlacing(Home))
    ensures Apply(Cfg, s, EndPlacing(Home)) == s.(working := map[Home := Sweeping(Source, 0, Some({"b"}), 0, {}, {})])
  {
  }

  lemma NothingListed(s: State)
    requires forall k :: k in s.store ==> !Set.IsManagedCopy(s.store[k].obj)
    ensures |Set.Each()| == 1 && ListedUnder(Set, s, Home, 0) == {}
  {
    TheSet();
    forall k | k in s.store ensures !MatchesStamp(Domain, s.store[k].obj.labels, Home) {
      assert Domain in Set.Each();
    }
  }

  lemma ListsNoCopies(s: State)
    requires InPhaseOnly(s, Sweeping(Source, 0, Some({"b"}), 0, {}, {}))
    requires forall k :: k in s.store ==> !Set.IsManagedCopy(s.store[k].obj)
    ensures Enabled(Cfg, s, ListCopies(Home, {}, Ok))
    ensures Apply(Cfg, s, ListCopies(Home, {}, Ok)) == s.(working := map[Home := Sweeping(Source, 0, Some({"b"}), 1, {}, {})])
  {
    NothingListed(s);
  }

  lemma EndsSweeping(s: State, seen: set<string>)
    requires InPhaseOnly(s, Sweeping(Source, 0, Some({"b"}), 1, seen, {}))
    ensures Enabled(Cfg, s, EndSweeping(Home))
    ensures Apply(Cfg, s, EndSweeping(Home)) == s.(working := map[])
  {
    TheSet();
  }

  lemma StrangerLeaves(s: State)
    requires There in s.store && s.store[There].obj == Stranger
    ensures Enabled(Cfg, s, UserDelete(There))
    ensures Apply(Cfg, s, UserDelete(There)) == s.(store := s.store - {There}, rev := s.rev + 1)
  {
    TheObjects();
    TheSet();
  }

  lemma LeftoverComes(s: State)
    requires There !in s.store
    ensures Enabled(Cfg, s, UserPut(There, Leftover))
    ensures Apply(Cfg, s, UserPut(There, Leftover))
         == s.(store := s.store[There := Cell(Leftover, s.rev)], past := s.past[s.rev := Event(There, Leftover)], rev := s.rev + 1)
  {
    TheObjects();
    TheSet();
  }

  // ------------------------------------------------------------------ two runs

  function At0(store: map<Key, Cell>, past: map<nat, Event>, queue: set<Key>, working: map<Key, Phase>, rev: nat): State {
    State(store, Spaces, queue, {}, working, map[Home := 0], past, rev)
  }

  /** The same before any worker has started. */
  function Fresh(store: map<Key, Cell>, past: map<nat, Event>, rev: nat): State {
    State(store, Spaces, {Home}, {}, map[], map[], past, rev)
  }

  lemma StartsInOrder(store: map<Key, Cell>, past: map<nat, Event>, rev: nat)
    requires Home in store && store[Home] == Cell(Source, 0)
    requires forall k :: k in store ==>
               k in {Home, There} && store[k].ver < rev && store[k].ver in past && past[store[k].ver] == Event(k, store[k].obj)
    requires forall v :: v in past ==> past[v].key in store && store[past[v].key].ver == v
    requires There in store ==> store[There].obj == Stranger
    ensures Init(Cfg, Fresh(store, past, rev)) && AllWoken(Set, Fresh(store, past, rev)) <= {Home}
  {
    TheSet();
    TheObjects();
    var s := Fresh(store, past, rev);
    forall k | k in s.store ensures ObjOk(Set, k, s.store[k].obj) && !Set.IsManagedCopy(s.store[k].obj) {
    }
    forall k | k in s.store ensures Woken(Set, k, s.store[k].obj) <= {Home} {
    }
  }

  ghost predicate Steps(s: State, m: Move, t: State) {
    Enabled(Cfg, s, m) && t == Apply(Cfg, s, m)
  }

  lemma RunOfSteps(ss: seq<State>, ms: seq<Move>)
    requires |ss| == |ms| + 1 && Init(Cfg, ss[0]) && AllWoken(Set, ss[0]) <= ss[0].queue
    requires forall i {:trigger ms[i]} :: 0 <= i < |ms| ==> Steps(ss[i], ms[i], ss[i + 1])
    ensures IsListedRun(Cfg, ss, ms)
  {
    hide InPhase;
    hide ReadsTruly;
    hide Apply;
    hide Init;
    hide AllWoken;
    forall i {:trigger ms[i]} | 0 <= i < |ms| ensures Enabled(Cfg, ss[i], ms[i]) && ss[i + 1] == Apply(Cfg, ss[i], ms[i]) {
      assert Steps(ss[i], ms[i], ss[i + 1]);
    }
  }

  lemma StillWanted(s: State)
    requires s.namespaces == Spaces && Home in s.store && s.store[Home].obj == Source
    ensures Wants(Cfg, s, Home, "b")
  {
    TheObjects();
    TheTargets(BranchOf(Cfg, Some(Source)).sel);
  }

  const Both := map[Home := Cell(Source, 0), There := Cell(Stranger, 1)]
  const BothPast := map[0 := Event(Home, Source), 1 := Event(There, Stranger)]
  const Alone := map[Home := Cell(Source, 0)]
  const AlonePast := map[0 := Event(Home, Source)]
  const Taken := Alone[There := Cell(Leftover, 1)]
  const TakenPast := AlonePast[1 := Event(There, Leftover)]

  /** A pass over a blocked key, and the blocker's removal. */
  function B0(): State {
    Fresh(Both, BothPast, 2)
  }

  function B1(): State {
    At0(Both, BothPast, {}, map[Home := Listing(Source)], 2)
  }

  function B2(): State {
    At0(Both, BothPast, {}, map[Home := Placing(Source, {"b"}, {"b"})], 2)
  }

  function B3(): State {
    At0(Both, BothPast, {}, map[Home := Placing(Source, {"b"}, {})], 2)
  }

  function B4(): State {
    At0(Both, BothPast, {}, map[Home := Sweeping(Source, 0, Some({"b"}), 0, {}, {})], 2)
  }

  function B5(): State {
    At0(Both, BothPast, {}, map[Home := Sweeping(Source, 0, Some({"b"}), 1, {}, {})], 2)
  }

  function B6(): State {
    At0(Both, BothPast, {}, map[], 2)
  }

  function B7(): State {
    At0(Alone, BothPast, {}, map[], 3)
  }

  function BlockedStates(): seq<State> {
    [B0(), B1(), B2(), B3(), B4(), B5(), B6(), B7()]
  }

  function BlockedMoves(): seq<Move> {
    [Start(Home, Some(Cell(Source, 0))), ListNamespaces(Home, Spaces, Ok),
     Look(Home, "b", Some(Cell(Stranger, 1)), Ok), EndPlacing(Home), ListCopies(Home, {}, Ok), EndSweeping(Home),
     UserDelete(There)]
  }

  lemma BlockedStarts()
    ensures Steps(B0(), Start(Home, Some(Cell(Source, 0))), B1())
    ensures Steps(B1(), ListNamespaces(Home, Spaces, Ok), B2())
    ensures Steps(B2(), Look(Home, "b", Some(Cell(Stranger, 1)), Ok), B3())
  {
    hide Apply;
    hide Enabled;
    Starts(B0(), 0);
    Lists(B1());
    LooksAndRefuses(B2(), 1);
    assert map[][Home := 0] == map[Home := 0];
  }

  lemma BlockedEnds()
    ensures Steps(B3(), EndPlacing(Home), B4())
    ensures Steps(B4(), ListCopies(Home, {}, Ok), B5())
    ensures Steps(B5(), EndSweeping(Home), B6())
    ensures Steps(B6(), UserDelete(There), B7())
  {
    hide Apply;
    hide Enabled;
    TheObjects();
    EndsPlacing(B3());
    ListsNoCopies(B4());
    EndsSweeping(B5(), {});
    StrangerLeaves(B6());
    assert Both - {There} == Alone;
  }

  lemma BlockedRun()
    ensures IsListedRun(Cfg, BlockedStates(), BlockedMoves())
  {
    hide Steps;
    hide Init;
    hide AllWoken;
    hide IsListedRun;
    StartsInOrder(Both, BothPast, 2);
    hide B1;
    hide B2;
    hide B3;
    hide B4;
    hide B5;
    hide B6;
    hide B7;
    BlockedStarts();
    BlockedEnds();
    RunOfSteps(BlockedStates(), BlockedMoves());
  }

  /** Deleting a blocker wakes nobody: a run whose source met somebody's own object ends, after
      that object is gone, at rest with its wanted key empty. */
  lemma BlockerGoneNobodyWoken()
    ensures var s := At0(Alone, BothPast, {}, map[], 3);
            && IsListedRun(Cfg, BlockedStates(), BlockedMoves()) && BlockedStates()[7] == s && AtRest(s)
            && Wants(Cfg, s, Home, "b") && CopyKey(Home, "b") !in s.store
  {
    hide IsListedRun;
    BlockedRun();
    StillWanted(At0(Alone, BothPast, {}, map[], 3));
    hide Wants;
  }

  /** A Create that comes second. */
  function T0(): State {
    Fresh(Alone, AlonePast, 1)
  }

  function T1(): State {
    At0(Alone, AlonePast, {}, map[Home := Listing(Source)], 1)
  }

  function T2(): State {
    At0(Alone, AlonePast, {}, map[Home := Placing(Source, {"b"}, {"b"})], 1)
  }

  function T3(): State {
    At0(Alone, AlonePast, {}, map[Home := Writing(Source, {"b"}, {}, "b", None)], 1)
  }

  function T4(): State {
    At0(Taken, TakenPast, {}, map[Home := Writing(Source, {"b"}, {}, "b", None)], 2)
  }

  function T5(): State {
    At0(Taken, TakenPast, {}, map[Home := Placing(Source, {"b"}, {})], 2)
  }

  function T6(): State {
    At0(Taken, TakenPast, {}, map[Home := Sweeping(Source, 0, Some({"b"}), 0, {}, {})], 2)
  }

  function T7(): State {
    At0(Taken, TakenPast, {}, map[Home := Sweeping(Source, 0, Some({"b"}), 1, {}, {})], 2)
  }

  function T8(): State {
    At0(Taken, TakenPast, {}, map[], 2)
  }

  function TakenStates(): seq<State> {
    [T0(), T1(), T2(), T3(), T4(), T5(), T6(), T7(), T8()]
  }

  function TakenMoves(): seq<Move> {
    [Start(Home, Some(Cell(Source, 0))), ListNamespaces(Home, Spaces, Ok), Look(Home, "b", None, Ok),
     UserPut(There, Leftover), Write(Home, Ok), EndPlacing(Home), ListCopies(Home, {}, Ok), EndSweeping(Home)]
  }

  lemma TakenStarts()
    ensures Steps(T0(), Start(Home, Some(Cell(Source, 0))), T1())
    ensures Steps(T1(), ListNamespaces(Home, Spaces, Ok), T2())
    ensures Steps(T2(), Look(Home, "b", None, Ok), T3())
    ensures Steps(T3(), UserPut(There, Leftover), T4())
  {
    hide Apply;
    hide Enabled;
    Starts(T0(), 0);
    Lists(T1());
    LooksAndFindsNothing(T2());
    LeftoverComes(T3());
    assert map[][Home := 0] == map[Home := 0];
  }

  lemma TakenEnds()
    ensures Steps(T4(), Write(Home, Ok), T5())
    ensures Steps(T5(), EndPlacing(Home), T6())
    ensures Steps(T6(), ListCopies(Home, {}, Ok), T7())
    ensures Steps(T7(), EndSweeping(Home), T8())
  {
    hide Apply;
    hide Enabled;
    TheObjects();
    FindsItTaken(T4());
    EndsPlacing(T5());
    ListsNoCopies(T6());
    EndsSweeping(T7(), {});
  }

  lemma TakenRun()
    ensures IsListedRun(Cfg, TakenStates(), TakenMoves())
  {
    hide Steps;
    hide Init;
    hide AllWoken;
    hide IsListedRun;
    StartsInOrder(Alone, AlonePast, 1);
    hide T1;
    hide T2;
    hide T3;
    hide T4;
    hide T5;
    hide T6;
    hide T7;
    hide T8;
    TakenStarts();
    TakenEnds();
    RunOfSteps(TakenStates(), TakenMoves());
  }

  lemma NeverBlocked(s: State)
    requires There in s.store ==> s.store[There].obj == Leftover
    ensures Unblocked(Cfg, s, Home, "b")
  {
    hide Wants;
    TheObjects();
    assert CopyKey(Home, "b") == There;
  }

  /** A Create that finds its key taken is not retried: an object to adopt that appears between
      Get and Create stays unadopted, though nothing ever blocked the key. */
  lemma CreateComesSecond()
    ensures var s := At0(Taken, TakenPast, {}, map[], 2);
            && IsListedRun(Cfg, TakenStates(), TakenMoves()) && TakenStates()[8] == s && AtRest(s)
            && Wants(Cfg, s, Home, "b") && !PlacedAt(Set, s, Home, Source, "b")
            && forall i :: 0 <= i < |TakenStates()| ==> Unblocked(Cfg, TakenStates()[i], Home, "b")
  {
    hide IsListedRun;
    hide Unblocked;
    hide PlacedAt;
    hide Wants;
    TakenRun();
    forall i | 0 <= i < |TakenStates()| ensures Unblocked(Cfg, TakenStates()[i], Home, "b") {
      NeverBlocked(TakenStates()[i]);
    }
    NotPlaced();
    StillWanted(At0(Taken, TakenPast, {}, map[], 2));
  }

  lemma NotPlaced()
    ensures !PlacedAt(Set, At0(Taken, TakenPast, {}, map[], 2), Home, Source, "b")
  {
    assert CopyKey(Home, "b") == There;
    assert Domain.managedByLabel in Set.CopyLabels(Home, Source, "");
  }

  // ------------------------------------------------------------------ an orphan

  const Marked := Source.(deleting := true)
  const Copy := FreshCopy(Set, Home, Source, "")

  lemma TheCopy()
    ensures Set.CopyOrigin(Copy) == Some(Home) && Set.IsManagedCopy(Copy) && !Set.IsSource(Copy) && !Set.HasFinalizer(Copy)
    ensures MatchesStamp(Domain, Copy.labels, Home) && Live(Copy) == Some(Copy) && Woken(Set, There, Copy) == {Home}
  {
    TheSet();
    TheObjects();
    WrittenCopyIsRecognised(Set, Home, Source, Copy, "");
    CopyLabelsLookup(Set, Home, Source, "");
  }

  lemma TheMarked()
    ensures Set.IsSource(Marked) && Set.HasFinalizer(Marked) && !Set.IsManagedCopy(Marked) && Live(Marked) == Some(Marked)
    ensures BranchOf(Cfg, Some(Marked)) == CleanUp && Woken(Set, Home, Marked) == {Home}
    ensures Set.ReleasedFinalizers(Marked.finalizers) == []
  {
    TheSet();
    TheObjects();
    assert Set.Each()[1..] == [];
  }

  lemma MarksSource(s: State)
    requires Home in s.store && s.store[Home].obj == Source
    ensures Enabled(Cfg, s, UserDelete(Home))
    ensures Apply(Cfg, s, UserDelete(Home))
         == s.(store := s.store[Home := Cell(Marked, s.rev)], past := s.past[s.rev := Event(Home, Marked)],
               queue := s.queue + {Home}, rev := s.rev + 1)
  {
    TheMarked();
  }

  lemma CopyLands(s: State)
    requires InPhaseOnly(s, Writing(Source, {"b"}, {}, "b", None)) && There !in s.store
    ensures Enabled(Cfg, s, Write(Home, Ok))
    ensures Apply(Cfg, s, Write(Home, Ok))
         == s.(store := s.store[There := Cell(Copy, s.rev)], past := s.past[s.rev := Event(There, Copy)],
               queue := s.queue + {Home}, rev := s.rev + 1, working := map[Home := Placing(Source, {"b"}, {})])
  {
    hide KeySet.IsSource;
    hide KeySet.HasFinalizer;
    hide KeySet.CopyOrigin;
    TheCopy();
    assert CopyKey(Home, "b") == There;
  }

  lemma CopyListed(s: State)
    requires s.store.Keys == {Home, There} && !Set.IsManagedCopy(s.store[Home].obj) && s.store[There].obj == Copy
    ensures |Set.Each()| == 1 && ListedUnder(Set, s, Home, 0) == {There}
  {
    TheSet();
    TheCopy();
    assert Domain in Set.Each();
    assert !MatchesStamp(Domain, s.store[Home].obj.labels, Home);
  }

  lemma ListsTheCopy(s: State, v: nat)
    requires InPhaseOnly(s, Sweeping(Source, 0, Some({"b"}), 0, {}, {}))
    requires s.store.Keys == {Home, There} && !Set.IsManagedCopy(s.store[Home].obj) && Known(s, There, Copy, v)
    ensures Enabled(Cfg, s, ListCopies(Home, {There}, Ok))
    ensures Apply(Cfg, s, ListCopies(Home, {There}, Ok))
         == s.(working := map[Home := Sweeping(Source, 0, Some({"b"}), 1, {}, {There})])
  {
    hide MatchesStamp;
    hide ListedUnder;
    hide KeySet.IsManagedCopy;
    CopyListed(s);
    TheCopy();
    assert OnceListed(Set, s, Home, 0, There) by {
      assert s.past[v].key == There && MatchesStamp(Set.Each()[0], s.past[v].obj.labels, Home);
    }
  }

  lemma SkipsTheCopy(s: State)
    requires InPhaseOnly(s, Sweeping(Source, 0, Some({"b"}), 1, {}, {There}))
    ensures Enabled(Cfg, s, Sweep(Home, There, Ok))
    ensures Apply(Cfg, s, Sweep(Home, There, Ok)) == s.(working := map[Home := Sweeping(Source, 0, Some({"b"}), 1, {"b"}, {})])
  {
    assert {There} - {There} == {} && {} + {"b"} == {"b"};
  }

  lemma StartsCleaning(s: State, v: nat)
    requires Startable(s, Marked, v)
    ensures Enabled(Cfg, s, Start(Home, Some(Cell(Marked, v))))
    ensures Apply(Cfg, s, Start(Home, Some(Cell(Marked, v))))
         == s.(queue := {}, started := s.started[Home := v], working := map[Home := Sweeping(Marked, v, None, 0, {}, {})])
  {
    TheMarked();
  }

  /** The list that misses the copy; its event is still to come. */
  lemma MissesTheCopy(s: State, v: nat)
    requires InPhaseOnly(s, Sweeping(Marked, v, None, 0, {}, {}))
    requires s.store.Keys == {Home, There} && !Set.IsManagedCopy(s.store[Home].obj) && s.store[There].obj == Copy
    ensures Enabled(Cfg, s, ListCopies(Home, {}, Ok)) && !MissesNone(Cfg, s, ListCopies(Home, {}, Ok))
    ensures Apply(Cfg, s, ListCopies(Home, {}, Ok))
         == s.(late := s.late + {Home}, working := map[Home := Sweeping(Marked, v, None, 1, {}, {})])
  {
    hide MatchesStamp;
    hide ListedUnder;
    hide KeySet.IsManagedCopy;
    CopyListed(s);
    TheCopy();
    assert There in ListedUnder(Set, s, Home, 0);
  }

  lemma EndsCleaning(s: State, v: nat)
    requires InPhaseOnly(s, Sweeping(Marked, v, None, 1, {}, {}))
    ensures Enabled(Cfg, s, EndSweeping(Home))
    ensures Apply(Cfg, s, EndSweeping(Home)) == s.(working := map[Home := Releasing(Marked, v)])
  {
    TheSet();
  }

  lemma ReleasesSource(s: State, v: nat)
    requires InPhaseOnly(s, Releasing(Marked, v)) && CellAt(s, Home) == Some(Cell(Marked, v))
    ensures Enabled(Cfg, s, Release(Home, Ok))
    ensures Apply(Cfg, s, Release(Home, Ok))
         == s.(store := s.store - {Home}, queue := s.queue + {Home}, rev := s.rev + 1, working := map[])
  {
    TheMarked();
    SameButFinalizers(Set, Marked, Marked.(finalizers := []));
    assert Woken(Set, Home, Marked.(finalizers := [])) == {Home};
  }

  lemma Delivers(s: State)
    requires s.late == {Home}
    ensures Enabled(Cfg, s, Deliver(Home))
    ensures Apply(Cfg, s, Deliver(Home)) == s.(queue := s.queue + {Home}, late := {})
  {
  }

  lemma FindsNoSource(s: State)
    requires s.queue == {Home} && s.working == map[] && Home !in s.store
    ensures Enabled(Cfg, s, Start(Home, None))
    ensures Apply(Cfg, s, Start(Home, None)) == s.(queue := {})
  {
  }

  const Going := map[Home := Cell(Marked, 1)]
  const GoingPast := AlonePast[1 := Event(Home, Marked)]
  const Copied := Going[There := Cell(Copy, 2)]
  const CopiedPast := GoingPast[2 := Event(There, Copy)]
  const Orphaned := map[There := Cell(Copy, 2)]

  function Cleaning(store: map<Key, Cell>, queue: set<Key>, late: set<Key>, working: map<Key, Phase>, rev: nat): State {
    State(store, Spaces, queue, late, working, map[Home := 1], CopiedPast, rev)
  }

  /** A source is deleted while its worker writes a last copy; the worker that cleans up after
      it lists from a cache that has not seen that copy. */
  function O0(): State {
    Fresh(Alone, AlonePast, 1)
  }

  function O1(): State {
    At0(Alone, AlonePast, {}, map[Home := Listing(Source)], 1)
  }

  function O2(): State {
    At0(Alone, AlonePast, {}, map[Home := Placing(Source, {"b"}, {"b"})], 1)
  }

  function O3(): State {
    At0(Alone, AlonePast, {}, map[Home := Writing(Source, {"b"}, {}, "b", None)], 1)
  }

  function O4(): State {
    At0(Going, GoingPast, {Home}, map[Home := Writing(Source, {"b"}, {}, "b", None)], 2)
  }

  function O5(): State {
    At0(Copied, CopiedPast, {Home}, map[Home := Placing(Source, {"b"}, {})], 3)
  }

  function O6(): State {
    At0(Copied, CopiedPast, {Home}, map[Home := Sweeping(Source, 0, Some({"b"}), 0, {}, {})], 3)
  }

  function O7(): State {
    At0(Copied, CopiedPast, {Home}, map[Home := Sweeping(Source, 0, Some({"b"}), 1, {}, {There})], 3)
  }

  function O8(): State {
    At0(Copied, CopiedPast, {Home}, map[Home := Sweeping(Source, 0, Some({"b"}), 1, {"b"}, {})], 3)
  }

  function O9(): State {
    At0(Copied, CopiedPast, {Home}, map[], 3)
  }

  function O10(): State {
    Cleaning(Copied, {}, {}, map[Home := Sweeping(Marked, 1, None, 0, {}, {})], 3)
  }

  function O11(): State {
    Cleaning(Copied, {}, {Home}, map[Home := Sweeping(Marked, 1, None, 1, {}, {})], 3)
  }

  function O12(): State {
    Cleaning(Copied, {}, {Home}, map[Home := Releasing(Marked, 1)], 3)
  }

  function O13(): State {
    Cleaning(Orphaned, {Home}, {Home}, map[], 4)
  }

  function O14(): State {
    Cleaning(Orphaned, {Home}, {}, map[], 4)
  }

  function O15(): State {
    Cleaning(Orphaned, {}, {}, map[], 4)
  }

  function OrphanStates(): seq<State> {
    [O0(), O1(), O2(), O3(), O4(), O5(), O6(), O7(), O8(), O9(), O10(), O11(), O12(), O13(), O14(), O15()]
  }

  function OrphanMoves(): seq<Move> {
    [Start(Home, Some(Cell(Source, 0))), ListNamespaces(Home, Spaces, Ok), Look(Home, "b", None, Ok),
     UserDelete(Home), Write(Home, Ok), EndPlacing(Home), ListCopies(Home, {There}, Ok), Sweep(Home, There, Ok),
     EndSweeping(Home), Start(Home, Some(Cell(Marked, 1))), ListCopies(Home, {}, Ok), EndSweeping(Home),
     Release(Home, Ok), Deliver(Home), Start(Home, None)]
  }

  lemma OrphanStarts()
    ensures Steps(O0(), Start(Home, Some(Cell(Source, 0))), O1())
    ensures Steps(O1(), ListNamespaces(Home, Spaces, Ok), O2())
    ensures Steps(O2(), Look(Home, "b", None, Ok), O3())
  {
    hide Apply;
    hide Enabled;
    Starts(O0(), 0);
    Lists(O1());
    LooksAndFindsNothing(O2());
    assert map[][Home := 0] == map[Home := 0];
  }

  lemma OrphanWritten()
    ensures Steps(O3(), UserDelete(Home), O4())
    ensures Steps(O4(), Write(Home, Ok), O5())
    ensures Steps(O5(), EndPlacing(Home), O6())
  {
    hide Apply;
    hide Enabled;
    MarksSource(O3());
    CopyLands(O4());
    EndsPlacing(O5());
    assert Alone[Home := Cell(Marked, 1)] == Going;
  }

  lemma OrphanKept()
    ensures Steps(O6(), ListCopies(Home, {There}, Ok), O7())
    ensures Steps(O7(), Sweep(Home, There, Ok), O8())
    ensures Steps(O8(), EndSweeping(Home), O9())
  {
    hide Apply;
    hide Enabled;
    TheMarked();
    ListsTheCopy(O6(), 2);
    SkipsTheCopy(O7());
    EndsSweeping(O8(), {"b"});
  }

  lemma OrphanCleans()
    ensures Steps(O9(), Start(Home, Some(Cell(Marked, 1))), O10())
    ensures Steps(O10(), ListCopies(Home, {}, Ok), O11())
    ensures Steps(O11(), EndSweeping(Home), O12())
  {
    hide Startable;
    hide Apply;
    hide Enabled;
    hide MissesNone;
    hide BranchOf;
    hide KeySet.HasFinalizer;
    hide KeySet.IsSource;
    hide MatchesStamp;
    TheMarked();
    StartsCleaning(O9(), 1);
    OrphanMissed();
    EndsCleaning(O11(), 1);
    assert map[Home := 0][Home := 1] == map[Home := 1];
  }

  lemma OrphanLeft()
    ensures Steps(O12(), Release(Home, Ok), O13())
    ensures Steps(O13(), Deliver(Home), O14())
    ensures Steps(O14(), Start(Home, None), O15())
  {
    hide Apply;
    hide Enabled;
    ReleasesSource(O12(), 1);
    Delivers(O13());
    FindsNoSource(O14());
    assert Copied - {Home} == Orphaned;
  }

  lemma OrphanMissed()
    ensures Steps(O10(), ListCopies(Home, {}, Ok), O11())
    ensures !MissesNone(Cfg, O10(), ListCopies(Home, {}, Ok))
  {
    hide Apply;
    hide Enabled;
    hide MissesNone;
    hide BranchOf;
    hide KeySet.HasFinalizer;
    hide KeySet.IsSource;
    hide MatchesStamp;
    TheMarked();
    MissesTheCopy(O10(), 1);
  }

  lemma OrphanRun()
    ensures IsListedRun(Cfg, OrphanStates(), OrphanMoves())
  {
    hide Steps;
    hide Init;
    hide AllWoken;
    hide IsListedRun;
    hide O1;
    hide O2;
    hide O3;
    hide O4;
    hide O5;
    hide O6;
    hide O7;
    hide O8;
    hide O9;
    hide O10;
    hide O11;
    hide O12;
    hide O13;
    hide O14;
    hide O15;
    StartsInOrder(Alone, AlonePast, 1);
    OrphanStarts();
    OrphanWritten();
    OrphanKept();
    OrphanCleans();
    OrphanLeft();
    RunOfSteps(OrphanStates(), OrphanMoves());
  }

  /** One cleaning list that misses one copy is enough: the source goes, its copy stays, and
      when the copy's event arrives there is no source left to wake. Everything is at rest. */
  lemma MissedCopyIsOrphaned()
    ensures var s := Cleaning(Orphaned, {}, {}, map[], 4);
            && IsListedRun(Cfg, OrphanStates(), OrphanMoves()) && OrphanStates()[15] == s && AtRest(s)
            && !MissesNone(Cfg, OrphanStates()[10], OrphanMoves()[10])
            && LiveCopyAt(Set, s, There, Home) && Home !in s.store && !NoOrphans(Set, s)
  {
    hide IsListedRun;
    hide MissesNone;
    hide AtRest;
    hide LiveCopyAt;
    hide NoOrphans;
    hide O0;
    hide O1;
    hide O2;
    hide O3;
    hide O4;
    hide O5;
    hide O6;
    hide O7;
    hide O8;
    hide O9;
    hide O10;
    hide O11;
    hide O12;
    hide O13;
    hide O14;
    OrphanRun();
    OrphanMissed();
    OrphanIsThere();
  }

  lemma OrphanIsThere()
    ensures var s := Cleaning(Orphaned, {}, {}, map[], 4);
            AtRest(s) && LiveCopyAt(Set, s, There, Home) && Home !in s.store && !NoOrphans(Set, s)
  {
    hide KeySet.HasFinalizer;
    hide KeySet.IsSource;
    hide MatchesStamp;
    TheCopy();
    assert LiveCopyAt(Set, Cleaning(Orphaned, {}, {}, map[], 4), There, Home);
  }

  // ---------------------------------------------------------------- a held copy

  /** A copy of the source in a namespace it does not want, held by a finalizer. */
  const HeldCopy := Obj(Set.CopyLabels(Home, Source, ""), map[], ["mine"], false, Data)

  function Before(): World {
    map["hub" := map[Home := Source, There := HeldCopy]]
  }

  function After(): World {
    map["hub" := map[Home := Source, There := HeldCopy.(deleting := true)]]
  }

  lemma HeldIsDoomed(o: Obj)
    requires o.labels == HeldCopy.labels
    ensures Doomed(Set, Home, o, "")
  {
    TheSet();
    TheObjects();
    WrittenCopyIsRecognised(Set, Home, Source, HeldCopy.(annotations := Set.CopyAnnotations(Source)), "");
    assert Stamped(Set, Home, HeldCopy.(annotations := Set.CopyAnnotations(Source)));
  }

  lemma SourceIsNotStamped()
    ensures !Stamped(Set, Home, Source)
  {
    TheSet();
  }

  lemma NowhereToGo(c: Cluster)
    ensures BranchOf(Cfg, Some(Source)).Replicate?
    ensures Scope(Cfg, map[], None, Home, Source, BranchOf(Cfg, Some(Source)).sel, c)
            == if c == "hub" then Some(({}, "")) else None
  {
    TheObjects();
    assert Targets(Cfg, map[], Home, BranchOf(Cfg, Some(Source)).sel) == {};
  }

  /** A pass over a world with the source and its held copy only marks the copy. */
  lemma MarksHeld(w: World)
    requires w == Before() || w == After()
    ensures Passed(Cfg, map[], None, Home, w, After())
    ensures !Quiet(Cfg, map[], None, Home, w)
  {
    hide KeySet.CopyLabels;
    forall c: Cluster, k: Key
      ensures At(StoreOf(After(), c), k)
           == PassAt(Cfg, map[], None, Home, At(StoreOf(w, "hub"), Home), c, k, At(StoreOf(w, c), k))
    {
      NowhereToGo(c);
      MarksHeldAt(w, c, k);
    }
    NowhereToGo("hub");
    HeldIsDoomed(w["hub"][There]);
    hide Doomed;
    assert PassWrites(Cfg, map[], None, Home, At(StoreOf(w, "hub"), Home), "hub", There, At(StoreOf(w, "hub"), There));
  }

  lemma MarksHeldAt(w: World, c: Cluster, k: Key)
    requires w == Before() || w == After()
    ensures c == "hub" ==> At(StoreOf(After(), c), k) == SyncedAt(Set, Home, Source, {}, "", k, At(StoreOf(w, c), k))
    ensures c != "hub" ==> At(StoreOf(After(), c), k) == At(StoreOf(w, c), k)
  {
    SourceIsNotStamped();
    HeldIsDoomed(w["hub"][There]);
    hide Stamped;
    hide KeySet.CopyLabels;
  }

  /** A world that two passes, or any number, do not settle: every pass deletes the held copy
      again. */
  lemma HeldCopyNeverSettles()
    ensures NotOwnCopy(Cfg, Home, Before()) && HeldStale(Cfg, map[], None, Home, Before(), "hub", There)
    ensures Passed(Cfg, map[], None, Home, Before(), After()) && Passed(Cfg, map[], None, Home, After(), After())
    ensures !Quiet(Cfg, map[], None, Home, After())
  {
    MarksHeld(Before());
    MarksHeld(After());
    SourceIsNotStamped();
    HeldIsDoomed(HeldCopy);
    NowhereToGo("hub");
    hide Passed;
    hide Quiet;
    hide Doomed;
    hide Stamped;
    TheObjects();
  }

  // ---------------------------------------------------------- config-syncer's copies

  const Left := Obj(map["kubed.appscode.com/origin.name" := "x"], map[], [], false, Data)
  const Stray := Obj(map["k" := "x"], map[], [], false, Data)

  lemma BothUnmarked()
    ensures Unmarked(Set, Left) && Unmarked(Set, Stray) && Set.Sound()
  {
    TheSet();
    hide KeySet.Sound;
    assert Domain.managedByLabel[0] == 'd';
  }

  lemma OneBeginsRight()
    ensures FromConfigSyncer(Left) && !FromConfigSyncer(Stray)
  {
    var l, prefix := "kubed.appscode.com/origin.name", "kubed.appscode.com/origin";
    assert l[..|prefix|] == prefix && l in Left.labels;
    assert forall k :: k in Stray.labels ==> |k| < |prefix|;
  }

  /** A copy config-syncer left is known by the beginning of a label key, too. The converse does
      not count: a label key that is itself a beginning of that prefix. */
  lemma KnownByItsLabel(src: Obj)
    ensures Judge(Set, Home, src, Some(Left), "") == Adopt
    ensures Judge(Set, Home, src, Some(Stray), "") == Refuse
  {
    hide *;
    BothUnmarked();
    OneBeginsRight();
    TakenOverIff(Set, Home, src, Left, "");
    TakenOverIff(Set, Home, src, Stray, "");
  }

  // ------------------------------------------------------------------ two marks

  const TwoDomains := KeySet(NewKeys("new"), [NewKeys("old")])

  /** A source whose own labels carry a legacy mark: its copies carry two, so one of them is
      counted under both domains. */
  lemma MarkedSourceMarksTwice()
    ensures var src := Obj(map[NewKeys("old").managedByLabel := ManagedByValue], map[], [], false, Data);
            TwoDomains.Sound() && !TwoDomains.SingleStamp(TwoDomains.CopyLabels(Home, src, ""))
  {
    var src := Obj(map[NewKeys("old").managedByLabel := ManagedByValue], map[], [], false, Data);
    NewKeysApart(NewKeys("new"), NewKeys("old"));
    NewKeysApart(NewKeys("old"), NewKeys("new"));
    assert TwoDomains.Each() == [NewKeys("new"), NewKeys("old")];
    SingleStampIff(TwoDomains, Home, src, "");
    assert NewKeys("old") in TwoDomains.legacy && Managed(NewKeys("old"), src.labels);
  }

  // ---------------------------------------------------------- a spoke copy

  const New := NewKeys("new")
  const Old := NewKeys("old")
  const Moving := Config(TwoDomains, {}, Everywhere, "hub", "uid")
  const Shared := Obj(map[], map[New.syncAnnotation := "", New.targetClustersAnnotation := "s"], [New.finalizer], false, Data)
  const SpokeCopy := Obj(map[Old.managedByLabel := ManagedByValue, Old.originNSLabel := "a", Old.originNameLabel := "x"],
                         map[], [], false, Data)

  function SpokeWorld(): World {
    map["hub" := map[Home := Shared], "spoke" := map[Home := SpokeCopy]]
  }

  lemma TheDomains()
    ensures TwoDomains.Sound() && TwoDomains.Each() == [New, Old] && Only(TwoDomains).Each() == [New]
    ensures SelfApart(New) && SelfApart(Old) && Apart(New, Old) && Apart(Old, New)
    ensures New.targetClustersAnnotation != New.syncAnnotation && New.targetClustersAnnotation != Old.syncAnnotation
  {
    NewKeysApart(New, Old);
    NewKeysApart(Old, New);
    NewKeysInjective("new", TargetClusters, "new", Sync);
    NewKeysInjective("new", TargetClusters, "old", Sync);
    assert KeyOf(New, TargetClusters) != KeyOf(New, Sync) && KeyOf(New, TargetClusters) != KeyOf(Old, Sync);
    assert TwoDomains.Each() == [New, Old];
  }

  lemma SharedIsClear()
    ensures SignalsClear(TwoDomains, Shared) && NoLegacyFinalizer(TwoDomains, Shared.finalizers)
  {
    TheDomains();
    hide KeySet.Sound;
  }

  lemma SharedReplicates()
    ensures BranchOf(Moving, Some(Shared)).Replicate? && SignalsClear(TwoDomains, Shared)
    ensures NoLegacyFinalizer(TwoDomains, Shared.finalizers)
    ensures TwoDomains.TargetClustersValue(Shared.annotations) == Some("s")
    ensures Only(TwoDomains).TargetClustersValue(Shared.annotations) == Some("s")
  {
    TheDomains();
    SharedIsClear();
    hide SignalsClear;
    hide NoLegacyFinalizer;
    hide KeySet.Sound;
    assert New in TwoDomains.Each();
    MigratedFinalizersMeaning(TwoDomains, Shared.finalizers);
    assert TwoDomains.SyncValue(Shared.annotations) == Some((New.syncAnnotation, ""));
  }

  lemma SpokeCopyIsOwned()
    ensures TwoDomains.LegacyDomainOf(SpokeCopy).Some? && TwoDomains.OwnsCopy(SpokeCopy, Home, "uid") && !IsAdoptable(SpokeCopy)
  {
    TheDomains();
    assert Old in TwoDomains.legacy && Managed(Old, SpokeCopy.labels) && !Managed(New, SpokeCopy.labels);
    assert [New, Old][1..] == [Old];
    assert Old.managedByLabel[0] == 'o' && Old.originNSLabel[0] == 'o' && Old.originNameLabel[0] == 'o';
  }

  lemma TheSpokeIsPrinted(es: seq<Entry>)
    requires es == [Entry("s", "")]
    ensures Print(es) == "s"
    ensures forall id :: Listed(es, id) == if id == "s" then [""] else []
  {
    assert es[1..] == [];
  }

  lemma ListsTheSpoke()
    ensures Dests("a", "s", "s") == {"a"}
  {
    var es := [Entry("s", "")];
    TheSpokeIsPrinted(es);
    hide Listed;
    hide Print;
    hide Parsed;
    ParseUndoesPrint(map["s" := [""]], es);
    assert Resolve("a", [""]) == ["a"];
  }

  lemma SpokeIsReached()
    ensures BranchOf(Moving, Some(Shared)).Replicate?
    ensures Scope(Moving, map[], Some(map["s" := "spoke"]), Home, Shared, BranchOf(Moving, Some(Shared)).sel, "spoke")
            == Some(({"a"}, "uid"))
  {
    SharedReplicates();
    ListsTheSpoke();
    hide BranchOf;
    hide Dests;
    assert "spoke" in map["s" := "spoke"].Values by {
      assert map["s" := "spoke"]["s"] == "spoke";
    }
    assert DestsOn(map["s" := "spoke"], "a", "s", "spoke") == Dests("a", "s", "s");
  }

  /** Both signals are read off the hub. A copy on a spoke that is still under the legacy domain
      leaves them clear, and is migrated with the list and refused without it. */
  lemma SpokeCopyLeftBehind()
    ensures var w, spokes := SpokeWorld(), Some(map["s" := "spoke"]);
            && HubClear(Moving, w) && NoLegacyFinalizer(TwoDomains, Shared.finalizers)
            && Only(TwoDomains).TargetClustersValue(Shared.annotations).Some?
            && !PassesAgree(Moving, map[], spokes, Home, w)
  {
    var w, spokes := SpokeWorld(), Some(map["s" := "spoke"]);
    TheDomains();
    SharedReplicates();
    SpokeCopyIsOwned();
    SpokeIsReached();
    hide KeySet.Sound;
    hide SignalsClear;
    hide NoLegacyFinalizer;
    hide PassesAgree;
    hide BranchOf;
    hide Scope;
    hide IsAdoptable;
    hide KeySet.OwnsCopy;
    hide KeySet.LegacyDomainOf;
    assert !SpokeAgreesAt(Moving, map[], spokes, Home, BranchOf(Moving, Some(Shared)), Shared, "spoke", Home, Some(SpokeCopy));
    assert At(StoreOf(w, "spoke"), Home) == Some(SpokeCopy);
    PassesAgreeIff(Moving, map[], spokes, Home, w);
  }
}
