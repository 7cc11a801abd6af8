/** The meaning of reconcileSource (internal/controller/syncer.go) with its
    cross-cluster fan-out (internal/controller/cross_cluster.go): which branch a
    source takes, and what each key of each cluster holds afterwards. */
module Reconciling {
  import opened Objects
  import opened KeySets
  import opened Copies
  import TargetClusters

  type Selector = Labels -> bool
  type Namespaces = map<string, NamespaceInfo>

  /** A Syncer's fixed settings. labels.Parse is a parameter; hub is the cluster the
      local client talks to, hubUid the identity stamped on remote copies ("" = off). */
  datatype Config = Config(
    ks: KeySet,
    excluded: set<string>,
    parse: string -> Option<Selector>,
    hub: Cluster,
    hubUid: string
  )

  /** The spokes a pass sees: cluster id to the cluster its client reaches, or None
      when cross-cluster support is off. */
  type Spokes = Option<map<string, Cluster>>

  predicate Eligible(cfg: Config, sk: Key, sel: Selector, ns: string, info: NamespaceInfo) {
    ns != sk.ns && !info.terminating && ns !in cfg.excluded && sel(info.labels)
  }

  function Targets(cfg: Config, nss: Namespaces, sk: Key, sel: Selector): set<string> {
    set ns | ns in nss && Eligible(cfg, sk, sel, ns, nss[ns])
  }

  datatype Branch = Nothing | CleanUp | FixFinalizers | BadSelector | Replicate(sel: Selector)

  /** The branch reconcileSource takes for a source read as src (None: not found). */
  function BranchOf(cfg: Config, src: Option<Obj>): Branch {
    match src
    case None => Nothing
    case Some(o) =>
      if o.deleting || !cfg.ks.IsSource(o) then
        if cfg.ks.HasFinalizer(o) then CleanUp else Nothing
      else if cfg.ks.MigratedFinalizers(o.finalizers) != o.finalizers then FixFinalizers
      else match cfg.parse(SelectorText(cfg.ks, o))
        case None => BadSelector
        case Some(sel) => Replicate(sel)
  }

  function SelectorText(ks: KeySet, o: Obj): string {
    match ks.SyncValue(o.annotations)
    case None => ""
    case Some((_, value)) => value
  }

  /** Whether a pass walks the spokes at all, and what it asks of them. */
  predicate FansOut(cfg: Config, spokes: Spokes, src: Obj) {
    spokes.Some? && cfg.ks.TargetClustersValue(src.annotations).Some?
  }

  function TargetsText(ks: KeySet, src: Obj): string {
    match ks.TargetClustersValue(src.annotations)
    case None => ""
    case Some(value) => value
  }

  /** The namespaces an annotation asks for on cluster c, through whichever ids reach it. */
  function DestsOn(registered: map<string, Cluster>, home: string, csv: string, c: Cluster): set<string> {
    set id, ns | id in registered && registered[id] == c && ns in TargetClusters.Dests(home, csv, id) :: ns
  }

  predicate Reached(spokes: Spokes, c: Cluster) {
    spokes.Some? && c in spokes.value.Values
  }

  /** The namespaces a replicating pass fills on cluster c and the hub identity it
      stamps there, or None when it leaves c alone. */
  function Scope(cfg: Config, nss: Namespaces, spokes: Spokes, sk: Key, src: Obj, sel: Selector, c: Cluster)
    : Option<(set<string>, string)>
  {
    if c == cfg.hub then Some((Targets(cfg, nss, sk, sel), ""))
    else if FansOut(cfg, spokes, src) && Reached(spokes, c) then
      Some((DestsOn(spokes.value, sk.ns, TargetsText(cfg.ks, src), c), cfg.hubUid))
    else None
  }

  /** What key k of cluster c holds after a failure-free pass that read the source as src. */
  function PassAt(cfg: Config, nss: Namespaces, spokes: Spokes, sk: Key, src: Option<Obj>,
                  c: Cluster, k: Key, had: Option<Obj>): Option<Obj> {
    if src == None then had else BranchAt(cfg, nss, spokes, sk, BranchOf(cfg, src), src.value, c, k, had)
  }

  function BranchAt(cfg: Config, nss: Namespaces, spokes: Spokes, sk: Key, branch: Branch, src: Obj,
                    c: Cluster, k: Key, had: Option<Obj>): Option<Obj> {
    match branch
    case Nothing => had
    case BadSelector => had
    case FixFinalizers =>
      if c == cfg.hub && k == sk then Some(src.(finalizers := cfg.ks.MigratedFinalizers(src.finalizers)))
      else had
    case CleanUp =>
      if c == cfg.hub then
        if k == sk then Live(src.(finalizers := cfg.ks.ReleasedFinalizers(src.finalizers)))
        else SweptAt(cfg.ks, sk, {}, "", k, had)
      else if Reached(spokes, c) then SweptAt(cfg.ks, sk, {}, cfg.hubUid, k, had)
      else had
    case Replicate(sel) =>
      match Scope(cfg, nss, spokes, sk, src, sel, c)
      case None => had
      case Some((targets, oc)) => SyncedAt(cfg.ks, sk, src, targets, oc, k, had)
  }

  /** Whether such a pass issues a Create, Update or Delete call for key k of cluster c. */
  predicate PassWrites(cfg: Config, nss: Namespaces, spokes: Spokes, sk: Key, src: Option<Obj>,
                       c: Cluster, k: Key, had: Option<Obj>) {
    src.Some? && BranchWrites(cfg, nss, spokes, sk, BranchOf(cfg, src), src.value, c, k, had)
  }

  predicate BranchWrites(cfg: Config, nss: Namespaces, spokes: Spokes, sk: Key, branch: Branch, src: Obj,
                         c: Cluster, k: Key, had: Option<Obj>) {
    match branch
    case Nothing => false
    case BadSelector => false
    case FixFinalizers => c == cfg.hub && k == sk
    case CleanUp =>
      if c == cfg.hub then k == sk || SweptAway(cfg.ks, sk, {}, "", k, had)
      else Reached(spokes, c) && SweptAway(cfg.ks, sk, {}, cfg.hubUid, k, had)
    case Replicate(sel) =>
      match Scope(cfg, nss, spokes, sk, src, sel, c)
      case None => false
      case Some((targets, oc)) => SyncWrites(cfg.ks, sk, src, targets, oc, k, had)
  }

  // ------------------------------------------------------ one branch at a time

  function Released(cfg: Config, src: Obj): Obj {
    src.(finalizers := cfg.ks.ReleasedFinalizers(src.finalizers))
  }

  function Migrated(cfg: Config, src: Obj): Obj {
    src.(finalizers := cfg.ks.MigratedFinalizers(src.finalizers))
  }

  lemma FixBranch(cfg: Config, nss: Namespaces, spokes: Spokes, sk: Key, src: Obj, c: Cluster)
    ensures forall k, had ::
              && BranchAt(cfg, nss, spokes, sk, FixFinalizers, src, c, k, had)
                   == (if c == cfg.hub && k == sk then Some(Migrated(cfg, src)) else had)
              && BranchWrites(cfg, nss, spokes, sk, FixFinalizers, src, c, k, had) == (c == cfg.hub && k == sk)
  {
  }

  lemma CleanUpBranch(cfg: Config, nss: Namespaces, spokes: Spokes, sk: Key, src: Obj, c: Cluster)
    ensures c == cfg.hub ==> forall k, had ::
              && BranchAt(cfg, nss, spokes, sk, CleanUp, src, c, k, had)
                   == (if k == sk then Live(Released(cfg, src)) else SweptAt(cfg.ks, sk, {}, "", k, had))
              && BranchWrites(cfg, nss, spokes, sk, CleanUp, src, c, k, had)
                   == (k == sk || SweptAway(cfg.ks, sk, {}, "", k, had))
    ensures c != cfg.hub && Reached(spokes, c) ==> forall k, had ::
              && BranchAt(cfg, nss, spokes, sk, CleanUp, src, c, k, had) == SyncedAt(cfg.ks, sk, src, {}, cfg.hubUid, k, had)
              && BranchWrites(cfg, nss, spokes, sk, CleanUp, src, c, k, had)
                   == SyncWrites(cfg.ks, sk, src, {}, cfg.hubUid, k, had)
    ensures c != cfg.hub && !Reached(spokes, c) ==> forall k, had ::
              && BranchAt(cfg, nss, spokes, sk, CleanUp, src, c, k, had) == had
              && !BranchWrites(cfg, nss, spokes, sk, CleanUp, src, c, k, had)
  {
    hide SweptAt;
    hide SweptAway;
  }

  /** A replicating pass on a cluster within its scope, and on any other. */
  lemma ReplicateScope(cfg: Config, nss: Namespaces, spokes: Spokes, sk: Key, sel: Selector, src: Obj, c: Cluster)
    ensures match Scope(cfg, nss, spokes, sk, src, sel, c)
            case None => forall k, had ::
              && BranchAt(cfg, nss, spokes, sk, Replicate(sel), src, c, k, had) == had
              && !BranchWrites(cfg, nss, spokes, sk, Replicate(sel), src, c, k, had)
            case Some((targets, oc)) => forall k, had ::
              && BranchAt(cfg, nss, spokes, sk, Replicate(sel), src, c, k, had)
                   == SyncedAt(cfg.ks, sk, src, targets, oc, k, had)
              && BranchWrites(cfg, nss, spokes, sk, Replicate(sel), src, c, k, had)
                   == SyncWrites(cfg.ks, sk, src, targets, oc, k, had)
  {
    hide SyncedAt;
    hide SyncWrites;
    hide Scope;
  }

  type World = map<Cluster, Store>

  function StoreOf(w: World, c: Cluster): Store {
    if c in w then w[c] else map[]
  }

  /** w1 is what a failure-free pass for sk leaves of w0. */
  ghost predicate Passed(cfg: Config, nss: Namespaces, spokes: Spokes, sk: Key, w0: World, w1: World) {
    forall c: Cluster, k: Key ::
      At(StoreOf(w1, c), k)
        == PassAt(cfg, nss, spokes, sk, At(StoreOf(w0, cfg.hub), sk), c, k, At(StoreOf(w0, c), k))
  }

  /** A pass for sk from w would issue no write on any cluster. */
  ghost predicate Quiet(cfg: Config, nss: Namespaces, spokes: Spokes, sk: Key, w: World) {
    forall c: Cluster, k: Key ::
      !PassWrites(cfg, nss, spokes, sk, At(StoreOf(w, cfg.hub), sk), c, k, At(StoreOf(w, c), k))
  }

  /** Distinct spoke ids reach distinct clusters, none of them the hub. */
  ghost predicate Separate(cfg: Config, spokes: Spokes) {
    spokes.Some? ==>
      && (forall i, j :: i in spokes.value && j in spokes.value && spokes.value[i] == spokes.value[j] ==> i == j)
      && (forall i :: i in spokes.value ==> spokes.value[i] != cfg.hub)
  }
}
