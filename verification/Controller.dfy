/** The controller as a state machine at the granularity of single API calls
    (internal/controller/syncer.go, configmap_controller.go): many workers, one per
    source, interleaved with users, namespace changes and restarts. Reads go through a
    cache and may return anything the key held before; writes go to the API server. The
    decisions are those of Copies and Reconciling. */
module Controller {
  import opened Objects
  import opened KeySets
  import opened Copies
  import opened Reconciling

  /** A stored object with its resourceVersion, drawn from one growing counter. */
  datatype Cell = Cell(obj: Obj, ver: nat)

  /** Where a worker stands between two API calls of one reconcile. obj is the source
      as it was read at the start, ver the version it was read at. */
  datatype Phase =
    | Fixing(obj: Obj, ver: nat)                    // about to write migrated finalizers
    | Listing(obj: Obj)                             // about to list namespaces
    | Placing(obj: Obj, targets: set<string>, todo: set<string>)
    | Writing(obj: Obj, targets: set<string>, todo: set<string>, ns: string, got: Option<Cell>)
    | Sweeping(obj: Obj, ver: nat, keep: Option<set<string>>, listed: nat, seen: set<string>, items: set<Key>)
    | Releasing(obj: Obj, ver: nat)                 // about to drop the finalizers

  /** One write that left an object stored. */
  datatype Event = Event(key: Key, obj: Obj)

  /** past: every version ever stored. started: the newest version of a source that a worker
      has started from. late: sources that events still on their way to the cache will wake. */
  datatype State = State(
    store: map<Key, Cell>,
    namespaces: Namespaces,
    queue: set<Key>,
    late: set<Key>,
    working: map<Key, Phase>,
    started: map<Key, nat>,
    past: map<nat, Event>,
    rev: nat
  )

  /** How a call ends: it succeeds, fails without effect, or takes effect but the
      answer is lost and the caller sees an error. */
  datatype Reply = Ok | Failed | Lost

  datatype Move =
    | Start(sk: Key, seen: Option<Cell>)
    | Fix(sk: Key, reply: Reply)
    | ListNamespaces(sk: Key, nss: Namespaces, reply: Reply)
    | Look(sk: Key, ns: string, seen: Option<Cell>, reply: Reply)
    | Write(sk: Key, reply: Reply)
    | EndPlacing(sk: Key)
    | ListCopies(sk: Key, items: set<Key>, reply: Reply)
    | Sweep(sk: Key, k: Key, reply: Reply)
    | EndSweeping(sk: Key)
    | Release(sk: Key, reply: Reply)
    | UserPut(k: Key, obj: Obj)
    | UserDelete(k: Key)
    | ChangeNamespaces(spaces: Namespaces)
    | Deliver(woken: Key)
    | Restart

  predicate ByWorker(m: Move) {
    !m.UserPut? && !m.UserDelete? && !m.ChangeNamespaces? && !m.Deliver? && !m.Restart?
  }

  function ObjAt(s: State, k: Key): Option<Obj> {
    if k in s.store then Some(s.store[k].obj) else None
  }

  function CellAt(s: State, k: Key): Option<Cell> {
    if k in s.store then Some(s.store[k]) else None
  }

  function ObjOf(c: Option<Cell>): Option<Obj> {
    match c
    case None => None
    case Some(cell) => Some(cell.obj)
  }

  // ------------------------------------------------------------------- events

  /** The sources a watch event about object o at k enqueues: k itself through
      sourcePredicate, and the origin of a copy through mapCopyToSource. */
  function Woken(ks: KeySet, k: Key, o: Obj): set<Key> {
    (if ks.IsSource(o) || ks.HasFinalizer(o) then {k} else {})
    + (match ks.CopyOrigin(o) case None => {} case Some(sk) => {sk})
  }

  /** Store o at k under a new version, or drop k if nothing holds o any more. */
  function Put(ks: KeySet, s: State, k: Key, o: Obj): State {
    s.(store := if Live(o).Some? then s.store[k := Cell(o, s.rev)] else s.store - {k},
       past := if Live(o).Some? then s.past[s.rev := Event(k, o)] else s.past,
       queue := s.queue + Woken(ks, k, o),
       rev := s.rev + 1)
  }

  // -------------------------------------------------------------------- moves

  function CopyKey(sk: Key, ns: string): Key { Key(ns, sk.name) }

  predicate CanUpdate(s: State, k: Key, ver: nat) {
    k in s.store && s.store[k].ver == ver
  }

  /** The keys deleteCopies lists under the i-th domain. */
  function ListedUnder(ks: KeySet, s: State, sk: Key, i: nat): set<Key>
    requires i < |ks.Each()|
  {
    set k | k in s.store && MatchesStamp(ks.Each()[i], s.store[k].obj.labels, sk)
  }

  predicate Skips(p: Phase, k: Key)
    requires p.Sweeping?
  {
    k.ns in p.seen || (p.keep.Some? && k.ns in p.keep.value)
  }

  /** Which phase each worker move is taken in. */
  predicate InPhase(cfg: Config, s: State, m: Move)
    requires ByWorker(m)
  {
    if m.Start? then m.sk in s.queue && m.sk !in s.working
    else m.sk in s.working && var p := s.working[m.sk];
      match m
      case Fix(_, _) => p.Fixing?
      case ListNamespaces(_, _, _) => p.Listing?
      case Look(_, ns, _, _) => p.Placing? && ns in p.todo
      case Write(_, _) => p.Writing?
      case EndPlacing(_) => p.Placing? && p.todo == {}
      case ListCopies(_, _, _) => p.Sweeping? && p.items == {} && p.listed < |cfg.ks.Each()|
      case Sweep(_, k, _) => p.Sweeping? && k in p.items
      case EndSweeping(_) => p.Sweeping? && p.items == {} && p.listed == |cfg.ks.Each()|
      case Release(_, _) => p.Releasing?
      case _ => false
  }

  /** The stamp labels of every honoured domain are the same. */
  ghost predicate SameStamp(ks: KeySet, a: Labels, b: Labels) {
    forall d :: d in ks.Each() ==>
      && Lookup(a, d.managedByLabel) == Lookup(b, d.managedByLabel)
      && Lookup(a, d.originNSLabel) == Lookup(b, d.originNSLabel)
      && Lookup(a, d.originNameLabel) == Lookup(b, d.originNameLabel)
  }

  /** What users do: anything but forging a stamp, stripping a Replikate finalizer,
      undoing a deletion, or putting stamp labels on a source. */
  ghost predicate UserMay(ks: KeySet, s: State, k: Key, o: Obj) {
    && k.ns != "" && k.name != ""
    && (ks.IsSource(o) ==> ks.Clean(o.labels))
    && match ObjAt(s, k)
       case None => !o.deleting && !ks.IsManagedCopy(o)
       case Some(had) =>
         && o.deleting == had.deleting
         && (ks.IsManagedCopy(o) ==> SameStamp(ks, had.labels, o.labels))
         && (forall d :: d in ks.Each() && d.finalizer in had.finalizers ==> d.finalizer in o.finalizers)
  }

  // -------------------------------------------------------------- cached reads

  /** A cached read: nothing, or any version the key ever held. */
  predicate MaySee(s: State, k: Key, seen: Option<Cell>) {
    seen.Some? ==> seen.value.ver in s.past && s.past[seen.value.ver] == Event(k, seen.value.obj)
  }

  /** Some version of k carried the stamp a list selects. */
  ghost predicate OnceListed(ks: KeySet, s: State, sk: Key, i: nat, k: Key)
    requires i < |ks.Each()|
  {
    exists v :: v in s.past && s.past[v].key == k && MatchesStamp(ks.Each()[i], s.past[v].obj.labels, sk)
  }

  /** What a read may report. The reads of one source by the workers that start on it never go
      back: the cache they come from does not. */
  ghost predicate ReadsTruly(cfg: Config, s: State, m: Move)
    requires ByWorker(m) && InPhase(cfg, s, m)
  {
    match m
    case Start(sk, seen) => MaySee(s, sk, seen) && (seen.Some? && sk in s.started ==> s.started[sk] <= seen.value.ver)
    case Look(sk, ns, seen, _) => MaySee(s, CopyKey(sk, ns), seen)
    case ListCopies(sk, items, _) => forall k :: k in items ==> OnceListed(cfg.ks, s, sk, s.working[sk].listed, k)
    case _ => true
  }

  /** A read of k that is out of date, where the event that is still to come will wake sk. */
  predicate Overtaken(ks: KeySet, s: State, k: Key, seen: Option<Cell>, sk: Key) {
    seen != CellAt(s, k) && sk in Woken(ks, k, if k in s.store then s.store[k].obj else seen.value.obj)
  }

  /** Whether the mover's source will be woken again by an event its reads have missed. */
  predicate Misled(cfg: Config, s: State, m: Move)
    requires ByWorker(m) && InPhase(cfg, s, m)
  {
    match m
    case Start(sk, seen) => Overtaken(cfg.ks, s, sk, seen, sk)
    case ListNamespaces(sk, nss, _) => nss != s.namespaces
    case Look(sk, ns, seen, _) => Overtaken(cfg.ks, s, CopyKey(sk, ns), seen, sk)
    case ListCopies(sk, items, _) => !(ListedUnder(cfg.ks, s, sk, s.working[sk].listed) <= items)
    case _ => false
  }

  ghost predicate Enabled(cfg: Config, s: State, m: Move) {
    if ByWorker(m) then InPhase(cfg, s, m) && ReadsTruly(cfg, s, m)
    else m.UserPut? ==> UserMay(cfg.ks, s, m.k, m.obj)
  }

  /** The object a move writes, if its call takes effect. */
  function Written(cfg: Config, s: State, m: Move): Option<(Key, Obj)>
    requires ByWorker(m) ==> InPhase(cfg, s, m)
  {
    match m
    case Fix(sk, reply) =>
      var p := s.working[sk];
      if reply != Failed && CanUpdate(s, sk, p.ver) then
        Some((sk, p.obj.(finalizers := cfg.ks.MigratedFinalizers(p.obj.finalizers))))
      else None
    case Write(sk, reply) =>
      var p := s.working[sk];
      var k := CopyKey(sk, p.ns);
      if reply == Failed then None
      else (match p.got
        case None => if k in s.store then None else Some((k, FreshCopy(cfg.ks, sk, p.obj, "")))
        case Some(cell) =>
          if CanUpdate(s, k, cell.ver) then Some((k, Mirror(cfg.ks, sk, p.obj, cell.obj, ""))) else None)
    case Sweep(sk, k, reply) =>
      if reply == Failed || Skips(s.working[sk], k) then None else Deleted(s, k)
    case Release(sk, reply) =>
      var p := s.working[sk];
      if reply != Failed && CanUpdate(s, sk, p.ver) then
        Some((sk, p.obj.(finalizers := cfg.ks.ReleasedFinalizers(p.obj.finalizers))))
      else None
    case UserPut(k, o) => Some((k, o))
    case UserDelete(k) => Deleted(s, k)
    case _ => None
  }

  /** Delete marks an object; a second Delete changes nothing. */
  function Deleted(s: State, k: Key): Option<(Key, Obj)> {
    if k in s.store && !s.store[k].obj.deleting then Some((k, s.store[k].obj.(deleting := true))) else None
  }

  /** Where the worker goes next: done, back to the queue after an error, or on. */
  datatype Next = Rest | Retry | Go(phase: Phase)

  function NextOf(cfg: Config, s: State, m: Move): Next
    requires ByWorker(m) && InPhase(cfg, s, m)
  {
    match m
    case Start(sk, seen) =>
      if seen.None? then Rest
      else
        var Cell(o, ver) := seen.value;
        (match BranchOf(cfg, Some(o))
          case Nothing => Rest
          case BadSelector => Rest
          case FixFinalizers => Go(Fixing(o, ver))
          case CleanUp => Go(Sweeping(o, ver, None, 0, {}, {}))
          case Replicate(_) => Go(Listing(o)))
    case Fix(sk, reply) =>
      if reply == Ok && (sk !in s.store || CanUpdate(s, sk, s.working[sk].ver)) then Rest else Retry
    case ListNamespaces(sk, nss, reply) =>
      var o := s.working[sk].obj;
      if reply != Ok then Retry
      else (match cfg.parse(SelectorText(cfg.ks, o))
        case None => Rest
        case Some(sel) =>
          var targets := Targets(cfg, nss, sk, sel);
          Go(Placing(o, targets, targets)))
    case Look(sk, ns, seen, reply) =>
      var p := s.working[sk];
      if reply != Ok then Retry
      else if Judge(cfg.ks, sk, p.obj, ObjOf(seen), "").Writes() then
        Go(Writing(p.obj, p.targets, p.todo - {ns}, ns, seen))
      else Go(Placing(p.obj, p.targets, p.todo - {ns}))
    case Write(sk, reply) =>
      var p := s.working[sk];
      if reply == Ok && (p.got.None? || CanUpdate(s, CopyKey(sk, p.ns), p.got.value.ver)) then
        Go(Placing(p.obj, p.targets, p.todo))       // AlreadyExists on Create counts as created
      else Retry
    case EndPlacing(sk) =>
      var p := s.working[sk];
      Go(Sweeping(p.obj, 0, Some(p.targets), 0, {}, {}))
    case ListCopies(sk, items, reply) =>
      var p := s.working[sk];
      if reply != Ok then Retry
      else Go(p.(items := items, listed := p.listed + 1))
    case Sweep(sk, k, reply) =>
      var p := s.working[sk];
      if Skips(p, k) then Go(p.(seen := p.seen + {k.ns}, items := p.items - {k}))
      else if reply != Ok then Retry
      else Go(p.(seen := p.seen + {k.ns}, items := p.items - {k}))
    case EndSweeping(sk) =>
      var p := s.working[sk];
      if p.keep.Some? then Rest else Go(Releasing(p.obj, p.ver))
    case Release(sk, reply) =>
      if reply == Ok && (sk !in s.store || CanUpdate(s, sk, s.working[sk].ver)) then Rest else Retry
  }

  function AllWoken(ks: KeySet, s: State): set<Key> {
    set k, sk | k in s.store && sk in Woken(ks, k, s.store[k].obj) :: sk
  }

  /** The state after a move's write, with the sources it wakes queued. */
  function Effect(cfg: Config, s: State, m: Move): State
    requires ByWorker(m) ==> InPhase(cfg, s, m)
  {
    match Written(cfg, s, m)
    case None => s
    case Some((k, o)) => Put(cfg.ks, s, k, o)
  }

  /** The newest version a worker has started from. */
  function StartedBy(s: State, m: Move): map<Key, nat> {
    if m.Start? && m.seen.Some? then s.started[m.sk := m.seen.value.ver] else s.started
  }

  function MovedOn(s: State, sk: Key, next: Next): State {
    match next
    case Rest => s.(working := s.working - {sk})
    case Retry => s.(working := s.working - {sk}, queue := s.queue + {sk})
    case Go(p) => s.(working := s.working[sk := p])
  }

  /** The state after a worker's call, but for where the worker goes next. */
  function Noted(cfg: Config, s: State, m: Move): State
    requires ByWorker(m) && InPhase(cfg, s, m)
  {
    var s1 := Effect(cfg, s, m);
    s1.(queue := if m.Start? then s1.queue - {m.sk} else s1.queue,
        late := if Misled(cfg, s, m) then s1.late + {m.sk} else s1.late,
        started := StartedBy(s, m))
  }

  function Apply(cfg: Config, s: State, m: Move): State
    requires ByWorker(m) ==> InPhase(cfg, s, m)
  {
    if ByWorker(m) then MovedOn(Noted(cfg, s, m), m.sk, NextOf(cfg, s, m))
    else OtherMove(cfg, Effect(cfg, s, m), m)
  }

  /** What others do. Deliver: an event that was on its way, or a resync, wakes a source. */
  function OtherMove(cfg: Config, s: State, m: Move): State
    requires !ByWorker(m)
  {
    match m
    case ChangeNamespaces(spaces) =>
      s.(namespaces := spaces, queue := s.queue + set k | k in s.store && cfg.ks.IsSource(s.store[k].obj))
    case Deliver(woken) => s.(queue := s.queue + {woken}, late := s.late - {woken})
    case Restart => s.(working := map[], queue := AllWoken(cfg.ks, s), late := {})
    case _ => s
  }

  // ------------------------------------------------------- what an answer tells

  /** The same call with another answer. */
  function Answered(m: Move, reply: Reply): Move {
    match m
    case Fix(sk, _) => Fix(sk, reply)
    case Write(sk, _) => Write(sk, reply)
    case Sweep(sk, k, _) => Sweep(sk, k, reply)
    case Release(sk, _) => Release(sk, reply)
    case _ => m
  }

  /** A write whose answer is lost has done what it does when it is answered, one that fails has
      done nothing, and after either the source is retried. Only a copy that a clean-up passes
      over costs no call. */
  lemma AnswersTell(cfg: Config, s: State, m: Move)
    requires (m.Fix? || m.Write? || m.Sweep? || m.Release?) && InPhase(cfg, s, m)
    requires m.Sweep? ==> !Skips(s.working[m.sk], m.k)
    ensures Effect(cfg, s, Answered(m, Lost)) == Effect(cfg, s, Answered(m, Ok))
    ensures Effect(cfg, s, Answered(m, Failed)) == s
    ensures NextOf(cfg, s, Answered(m, Lost)).Retry? && NextOf(cfg, s, Answered(m, Failed)).Retry?
  {
    hide Put;
  }

  /** Writing back a source that is gone meanwhile is the end of it, not an error; writing back
      one that has changed meanwhile is an error, and changes nothing. */
  lemma GoneOrChanged(cfg: Config, s: State, m: Move)
    requires (m.Fix? || m.Release?) && InPhase(cfg, s, m)
    ensures m.sk !in s.store ==> Effect(cfg, s, Answered(m, Ok)) == s && NextOf(cfg, s, Answered(m, Ok)).Rest?
    ensures m.sk in s.store && s.store[m.sk].ver != s.working[m.sk].ver ==>
              Effect(cfg, s, Answered(m, Ok)) == s && NextOf(cfg, s, Answered(m, Ok)).Retry?
  {
  }

  // ---------------------------------------------------- what the machine allows

  /** Nothing holds a reader to what is stored: a key may be read in any version it ever had, or
      as missing, and the namespaces in any way. */
  lemma ReadsMayBeStale(cfg: Config, s: State, sk: Key, ns: string, v: nat, nss: Namespaces, reply: Reply)
    requires sk in s.working
    ensures s.working[sk].Placing? && ns in s.working[sk].todo ==> Enabled(cfg, s, Look(sk, ns, None, reply))
    ensures s.working[sk].Placing? && ns in s.working[sk].todo && v in s.past && s.past[v].key == CopyKey(sk, ns) ==>
              Enabled(cfg, s, Look(sk, ns, Some(Cell(s.past[v].obj, v)), reply))
    ensures s.working[sk].Listing? ==> Enabled(cfg, s, ListNamespaces(sk, nss, reply))
  {
  }

  /** And a list may miss any of the copies it looks for. */
  lemma ListsMayMiss(cfg: Config, s: State, sk: Key, items: set<Key>, reply: Reply)
    requires InPhase(cfg, s, ListCopies(sk, items, reply))
    requires items <= ListedUnder(cfg.ks, s, sk, s.working[sk].listed)
    requires forall k :: k in s.store ==> s.store[k].ver in s.past && s.past[s.store[k].ver] == Event(k, s.store[k].obj)
    ensures Enabled(cfg, s, ListCopies(sk, items, reply))
  {
    forall k | k in items ensures OnceListed(cfg.ks, s, sk, s.working[sk].listed, k) {
      assert s.past[s.store[k].ver].key == k;
    }
  }

  /** Users may create any object that is not stamped and, if it is a source, carries no stamp
      labels; may change a copy's payload; may strip its stamp; and may delete anything. */
  lemma UsersMay(cfg: Config, s: State, k: Key, o: Obj, payload: Payload)
    requires k.ns != "" && k.name != ""
    ensures k !in s.store && !o.deleting && !cfg.ks.IsManagedCopy(o) && !cfg.ks.IsSource(o) ==> Enabled(cfg, s, UserPut(k, o))
    ensures k !in s.store && !o.deleting && !cfg.ks.IsManagedCopy(o) && cfg.ks.Clean(o.labels) ==> Enabled(cfg, s, UserPut(k, o))
    ensures k in s.store && !cfg.ks.IsSource(s.store[k].obj) ==>
              Enabled(cfg, s, UserPut(k, s.store[k].obj.(payload := payload)))
    ensures k in s.store && !cfg.ks.IsSource(s.store[k].obj) ==>
              Enabled(cfg, s, UserPut(k, s.store[k].obj.(labels := map[])))
    ensures Enabled(cfg, s, UserDelete(k))
  {
  }
}
