/** The decisions of a pass read off the labels, annotations and finalizers themselves
    (internal/controller/keyset.go, internal/controller/replikate.go,
    internal/controller/syncer.go): what the model decides through its key sets and verdicts
    is what the objects say. */
module Readings {
  import opened Objects
  import opened Keys
  import opened KeySets
  import opened Copies
  import opened Reconciling

  // ------------------------------------------------------------- one object

  /** Go's map index expression gives v. */
  ghost predicate Reads(m: Labels, key: string, v: string) {
    if key in m then m[key] == v else v == ""
  }

  ghost predicate Marked(d: Keys, o: Obj) {
    d.managedByLabel in o.labels && o.labels[d.managedByLabel] == "replikate"
  }

  /** Domain i is the first to mark o, so the one its stamp is read under. */
  ghost predicate MarkedFirst(ks: KeySet, i: int, o: Obj) {
    && 0 <= i < |ks.Each()| && Marked(ks.Each()[i], o)
    && forall j :: 0 <= j < i ==> !Marked(ks.Each()[j], o)
  }

  ghost predicate Unmarked(ks: KeySet, o: Obj) {
    forall d :: d in ks.Each() ==> !Marked(d, o)
  }

  /** o's stamp under d, as far as it names a hub, names this one, or this one has no name. */
  ghost predicate OurHubs(d: Keys, o: Obj, uid: string) {
    uid == "" || Reads(o.labels, d.originClusterLabel, "") || Reads(o.labels, d.originClusterLabel, uid)
  }

  ghost predicate OursUnder(d: Keys, o: Obj, sk: Key, uid: string) {
    Reads(o.labels, d.originNSLabel, sk.ns) && Reads(o.labels, d.originNameLabel, sk.name) && OurHubs(d, o, uid)
  }

  /** Left by config-syncer: its origin annotation, or a label whose key starts like it. */
  ghost predicate FromConfigSyncer(o: Obj) {
    var prefix := "kubed.appscode.com/origin";
    prefix in o.annotations || exists l :: l in o.labels && |l| >= |prefix| && l[..|prefix|] == prefix
  }

  /** o is not a copy of sk made by hub uid, nor one that config-syncer left. */
  ghost predicate LeaveAlone(ks: KeySet, sk: Key, uid: string, o: Obj) {
    if Unmarked(ks, o) then !FromConfigSyncer(o)
    else exists i :: MarkedFirst(ks, i, o) && !OursUnder(ks.Each()[i], o, sk, uid)
  }

  /** Some domain's label matcher selects o for sk. */
  ghost predicate Selected(ks: KeySet, sk: Key, o: Obj) {
    exists d :: d in ks.Each() && Marked(d, o)
                && d.originNSLabel in o.labels && o.labels[d.originNSLabel] == sk.ns
                && d.originNameLabel in o.labels && o.labels[d.originNameLabel] == sk.name
  }

  /** o is stamped for sk, and not by another hub. */
  ghost predicate Prunable(ks: KeySet, sk: Key, uid: string, o: Obj) {
    Selected(ks, sk, o) && exists i :: MarkedFirst(ks, i, o) && OurHubs(ks.Each()[i], o, uid)
  }

  lemma MarkedIsManaged(d: Keys, o: Obj)
    ensures Managed(d, o.labels) <==> Marked(d, o)
  {
  }

  lemma {:induction false} FirstMarked(ds: seq<Keys>, o: Obj)
    ensures match FirstManaged(ds, o.labels)
            case None => forall j :: 0 <= j < |ds| ==> !Marked(ds[j], o)
            case Some(d) => exists i :: 0 <= i < |ds| && ds[i] == d && Marked(d, o) && forall j :: 0 <= j < i ==> !Marked(ds[j], o)
  {
    if ds != [] {
      MarkedIsManaged(ds[0], o);
      if !Marked(ds[0], o) {
        FirstMarked(ds[1..], o);
        if FirstManaged(ds[1..], o.labels).Some? {
          var d := FirstManaged(ds[1..], o.labels).value;
          var i :| 0 <= i < |ds[1..]| && ds[1..][i] == d && Marked(d, o) && forall j :: 0 <= j < i ==> !Marked(ds[1..][j], o);
          assert ds[i + 1] == d;
          forall j | 0 <= j < i + 1 ensures !Marked(ds[j], o) {
            assert j > 0 ==> ds[j] == ds[1..][j - 1];
          }
        } else {
          forall j | 0 <= j < |ds| ensures !Marked(ds[j], o) {
            assert j > 0 ==> ds[j] == ds[1..][j - 1];
          }
        }
      }
    }
  }

  /** Whose copy an object is, is read under the first domain that marks it. */
  lemma ReadUnderFirst(ks: KeySet, i: int, o: Obj)
    requires MarkedFirst(ks, i, o)
    ensures ks.KeysFor(o) == Some(ks.Each()[i])
  {
    FirstMarked(ks.Each(), o);
    var d := ks.KeysFor(o).value;
    var n :| 0 <= n < |ks.Each()| && ks.Each()[n] == d && Marked(d, o) && forall j :: 0 <= j < n ==> !Marked(ks.Each()[j], o);
    assert n == i;
  }

  lemma SomeFirst(ks: KeySet, o: Obj)
    ensures Unmarked(ks, o) <==> ks.KeysFor(o).None?
    ensures !Unmarked(ks, o) ==> exists i :: MarkedFirst(ks, i, o)
  {
    FirstMarked(ks.Each(), o);
    if ks.KeysFor(o).Some? {
      var d := ks.KeysFor(o).value;
      var n :| 0 <= n < |ks.Each()| && ks.Each()[n] == d && Marked(d, o) && forall j :: 0 <= j < n ==> !Marked(ks.Each()[j], o);
      assert MarkedFirst(ks, n, o) && d in ks.Each();
    }
  }

  /** o bears source sk's name on the first stamp that marks it. */
  ghost predicate BearsName(ks: KeySet, sk: Key, o: Obj) {
    exists i :: MarkedFirst(ks, i, o) && Reads(o.labels, ks.Each()[i].originNSLabel, sk.ns)
                && Reads(o.labels, ks.Each()[i].originNameLabel, sk.name)
  }

  /** A copy maps back to the source its first stamp names, if that names one in full. */
  lemma CopyOriginReadOff(ks: KeySet, sk: Key, o: Obj)
    ensures ks.CopyOrigin(o) == Some(sk) <==> sk.ns != "" && sk.name != "" && BearsName(ks, sk, o)
  {
    SomeFirst(ks, o);
    if ks.KeysFor(o).Some? {
      var i :| MarkedFirst(ks, i, o);
      ReadUnderFirst(ks, i, o);
      forall n | MarkedFirst(ks, n, o) ensures n == i {
        FirstIsUnique(ks, n, i, o);
      }
    }
  }

  // -------------------------------------------------------------- upsertCopy

  ghost function Entry(m: Labels, key: string): Option<string> {
    if key in m then Some(m[key]) else None
  }

  /** What a copy of src written by hub uid reads under label l. */
  ghost function LabelOf(ks: KeySet, sk: Key, uid: string, src: Obj, l: string): Option<string> {
    var d := ks.primary;
    if l == d.managedByLabel then Some("replikate")
    else if l == d.originNSLabel then Some(sk.ns)
    else if l == d.originNameLabel then Some(sk.name)
    else if l == d.originClusterLabel && uid != "" then Some(uid)
    else Entry(src.labels, l)
  }

  /** What a copy of src reads under annotation a. */
  ghost function AnnotationOf(ks: KeySet, src: Obj, a: string): Option<string> {
    if a == "kubectl.kubernetes.io/last-applied-configuration" || exists d :: d in ks.Each() && a == d.syncAnnotation then None
    else Entry(src.annotations, a)
  }

  /** now is the copy of src written over had by hub uid: src's labels under the stamp, src's
      annotations but for sync annotations and kubectl's, src's payload. */
  ghost predicate WrittenOver(ks: KeySet, sk: Key, uid: string, src: Obj, had: Option<Obj>, now: Obj) {
    && now.payload == src.payload
    && now.finalizers == (if had.Some? then had.value.finalizers else [])
    && now.deleting == (had.Some? && had.value.deleting)
    && (forall l :: Entry(now.labels, l) == LabelOf(ks, sk, uid, src, l))
    && (forall a :: Entry(now.annotations, a) == AnnotationOf(ks, src, a))
  }

  lemma SameEntriesSameMap(a: Labels, b: Labels)
    requires forall l :: Entry(a, l) == Entry(b, l)
    ensures a == b
  {
    forall l ensures l in a <==> l in b {
      assert Entry(a, l) == Entry(b, l);
    }
    forall l | l in a ensures a[l] == b[l] {
      assert Entry(a, l) == Entry(b, l);
    }
  }

  lemma CopyLabelsReadOff(ks: KeySet, sk: Key, src: Obj, uid: string)
    requires ks.Sound()
    ensures forall l :: Entry(ks.CopyLabels(sk, src, uid), l) == LabelOf(ks, sk, uid, src, l)
  {
    assert ks.primary in ks.Each() && SelfApart(ks.primary);
  }

  lemma CopyAnnotationsReadOff(ks: KeySet, src: Obj)
    ensures forall a :: Entry(ks.CopyAnnotations(src), a) == AnnotationOf(ks, src, a)
  {
  }

  /** A copy's labels and annotations, entry by entry: what applyCopyMeta stamps and strips, and
      everything else as it is on the source. */
  lemma CopyIsReadOff(ks: KeySet, sk: Key, src: Obj, uid: string, had: Option<Obj>, now: Obj)
    requires ks.Sound()
    ensures WrittenOver(ks, sk, uid, src, had, now) <==>
              now == Obj(ks.CopyLabels(sk, src, uid), ks.CopyAnnotations(src),
                         if had.Some? then had.value.finalizers else [], had.Some? && had.value.deleting, src.payload)
  {
    CopyLabelsReadOff(ks, sk, src, uid);
    CopyAnnotationsReadOff(ks, src);
    hide LabelOf;
    hide AnnotationOf;
    hide Entry;
    hide KeySet.Sound;
    hide KeySet.CopyLabels;
    hide KeySet.CopyAnnotations;
    hide KeySet.Each;
    if WrittenOver(ks, sk, uid, src, had, now) {
      SameEntriesSameMap(now.labels, ks.CopyLabels(sk, src, uid));
      SameEntriesSameMap(now.annotations, ks.CopyAnnotations(src));
    }
  }

  lemma OursIsRead(d: Keys, o: Obj, sk: Key, uid: string)
    ensures OursUnder(d, o, sk, uid) <==> OwnsUnder(d, o.labels, sk, uid)
  {
  }

  lemma AdoptableIsRead(o: Obj)
    ensures IsAdoptable(o) <==> FromConfigSyncer(o)
  {
    var prefix := "kubed.appscode.com/origin";
    if l :| l in o.labels && KubedOriginPrefix <= l {
      assert l[..|prefix|] == prefix;
    }
    if l :| l in o.labels && |l| >= |prefix| && l[..|prefix|] == prefix {
      assert KubedOriginPrefix <= l;
    }
  }

  lemma LeftAloneIsRead(ks: KeySet, sk: Key, uid: string, o: Obj)
    ensures LeaveAlone(ks, sk, uid, o) <==> Untouchable(ks, sk, o, uid)
  {
    SomeFirst(ks, o);
    AdoptableIsRead(o);
    hide IsAdoptable;
    hide FromConfigSyncer;
    hide OursUnder;
    hide OwnsUnder;
    if ks.KeysFor(o).Some? {
      var i :| MarkedFirst(ks, i, o);
      OursIsRead(ks.Each()[i], o, sk, uid);
      forall n | MarkedFirst(ks, n, o) ensures n == i {
        FirstIsUnique(ks, n, i, o);
      }
      ReadUnderFirst(ks, i, o);
    }
  }

  lemma FirstIsUnique(ks: KeySet, m: int, n: int, o: Obj)
    requires MarkedFirst(ks, m, o) && MarkedFirst(ks, n, o)
    ensures m == n
  {
  }

  /** upsertCopy, read off the object it finds: what is not the source's own copy, made by this
      hub or by none in particular, nor config-syncer's, stays as it is; anything else becomes
      the copy. A call is made exactly if that makes a difference. */
  lemma UpsertReadOff(ks: KeySet, sk: Key, src: Obj, had: Option<Obj>, uid: string)
    requires ks.Sound()
    ensures var now := Placed(ks, sk, src, had, uid);
            && (if had.Some? && LeaveAlone(ks, sk, uid, had.value) then now == had
                else now.Some? && WrittenOver(ks, sk, uid, src, had, now.value))
            && (Judge(ks, sk, src, had, uid).Writes() <==> now != had)
  {
    PlacedMeaning(ks, sk, src, had, uid);
    if had.Some? {
      LeftAloneIsRead(ks, sk, uid, had.value);
    }
    hide LeaveAlone;
    hide Untouchable;
    hide WrittenOver;
    hide Judge;
    if !(had.Some? && LeaveAlone(ks, sk, uid, had.value)) {
      CopyIsReadOff(ks, sk, src, uid, had, Placed(ks, sk, src, had, uid).value);
    }
  }

  /** An unmanaged object is taken over if and only if it carries config-syncer's origin
      annotation or some label whose key begins with that key. */
  lemma TakenOverIff(ks: KeySet, sk: Key, src: Obj, e: Obj, uid: string)
    requires ks.Sound() && Unmarked(ks, e)
    ensures var prefix := "kubed.appscode.com/origin";
            Placed(ks, sk, src, Some(e), uid) != Some(e) <==>
              prefix in e.annotations || exists l :: l in e.labels && |l| >= |prefix| && l[..|prefix|] == prefix
    ensures Judge(ks, sk, src, Some(e), uid) == if FromConfigSyncer(e) then Adopt else Refuse
  {
    SomeFirst(ks, e);
    AdoptableIsRead(e);
    UpsertReadOff(ks, sk, src, Some(e), uid);
    hide LeaveAlone;
    hide IsAdoptable;
    PlacedMeaning(ks, sk, src, Some(e), uid);
  }

  // ------------------------------------------------------------- deleteCopies

  lemma SelectedIsStamped(ks: KeySet, sk: Key, o: Obj)
    ensures Selected(ks, sk, o) <==> Stamped(ks, sk, o)
  {
    if Selected(ks, sk, o) {
      var d :| d in ks.Each() && Marked(d, o)
               && d.originNSLabel in o.labels && o.labels[d.originNSLabel] == sk.ns
               && d.originNameLabel in o.labels && o.labels[d.originNameLabel] == sk.name;
      assert MatchesStamp(d, o.labels, sk);
    }
  }

  lemma PrunableIsDoomed(ks: KeySet, sk: Key, uid: string, o: Obj)
    ensures Prunable(ks, sk, uid, o) <==> Doomed(ks, sk, o, uid)
  {
    SelectedIsStamped(ks, sk, o);
    SomeFirst(ks, o);
    if Selected(ks, sk, o) {
      var i :| MarkedFirst(ks, i, o);
      ReadUnderFirst(ks, i, o);
      forall n | MarkedFirst(ks, n, o) ensures n == i {
        FirstIsUnique(ks, n, i, o);
      }
    }
    hide Selected;
    hide Stamped;
  }

  /** deleteCopies, read off the object: it is deleted if and only if it lies outside keep, some
      domain's stamp on it names the source, and no other hub's name is on it, or this hub has
      none. Deleted means gone, or marked while finalizers hold it. */
  lemma PruneReadOff(ks: KeySet, sk: Key, keep: set<string>, uid: string, k: Key, o: Obj)
    ensures SweptAway(ks, sk, keep, uid, k, Some(o)) <==> k.ns !in keep && Prunable(ks, sk, uid, o)
    ensures SweptAt(ks, sk, keep, uid, k, Some(o))
         == if k.ns in keep || !Prunable(ks, sk, uid, o) then Some(o)
            else if o.finalizers == [] then None
            else Some(o.(deleting := true))
  {
    PrunableIsDoomed(ks, sk, uid, o);
    hide Prunable;
    hide Doomed;
  }

  // ------------------------------------------------------ which branch is taken

  /** Domain i is the first whose sync annotation is on o. */
  ghost predicate SyncedFirst(ks: KeySet, i: int, o: Obj) {
    && 0 <= i < |ks.Each()| && ks.Each()[i].syncAnnotation in o.annotations
    && forall j :: 0 <= j < i ==> ks.Each()[j].syncAnnotation !in o.annotations
  }

  lemma {:induction false} FirstSyncIsFirst(ds: seq<Keys>, ann: Labels, i: int)
    requires 0 <= i < |ds| && ds[i].syncAnnotation in ann
    requires forall j :: 0 <= j < i ==> ds[j].syncAnnotation !in ann
    ensures FirstSync(ds, ann) == Some((ds[i].syncAnnotation, ann[ds[i].syncAnnotation]))
  {
    if i > 0 {
      FirstSyncIsFirst(ds[1..], ann, i - 1);
    }
  }

  /** The selector a source asks for is the value of its sync annotation, under the first domain
      it carries one of. */
  lemma SelectorIsTheValue(ks: KeySet, i: int, o: Obj)
    requires SyncedFirst(ks, i, o)
    ensures SelectorText(ks, o) == o.annotations[ks.Each()[i].syncAnnotation]
    ensures ks.SyncValue(o.annotations) == Some((ks.Each()[i].syncAnnotation, SelectorText(ks, o)))
    ensures ks.IsSource(o)
  {
    FirstSyncIsFirst(ks.Each(), o.annotations, i);
  }

  lemma {:induction false} FirstTargetsIsFirst(ds: seq<Keys>, ann: Labels, i: int)
    requires 0 <= i < |ds| && ds[i].targetClustersAnnotation in ann
    requires forall j :: 0 <= j < i ==> ds[j].targetClustersAnnotation !in ann
    ensures FirstTargets(ds, ann) == Some(ann[ds[i].targetClustersAnnotation])
  {
    if i > 0 {
      FirstTargetsIsFirst(ds[1..], ann, i - 1);
    }
  }

  /** Domain i is the first whose target-clusters annotation is on o. */
  ghost predicate ListedFirst(ks: KeySet, i: int, o: Obj) {
    && 0 <= i < |ks.Each()| && ks.Each()[i].targetClustersAnnotation in o.annotations
    && forall j :: 0 <= j < i ==> ks.Each()[j].targetClustersAnnotation !in o.annotations
  }

  /** The clusters a source asks for are the value of its target-clusters annotation, under the
      first domain it carries one of; without one it asks for nothing. */
  lemma ClustersAreTheValue(ks: KeySet, o: Obj)
    ensures forall i :: ListedFirst(ks, i, o) ==>
              ks.TargetClustersValue(o.annotations) == Some(o.annotations[ks.Each()[i].targetClustersAnnotation])
    ensures (forall d :: d in ks.Each() ==> d.targetClustersAnnotation !in o.annotations)
       <==> ks.TargetClustersValue(o.annotations) == None
  {
    forall i | ListedFirst(ks, i, o)
      ensures ks.TargetClustersValue(o.annotations) == Some(o.annotations[ks.Each()[i].targetClustersAnnotation])
    {
      FirstTargetsIsFirst(ks.Each(), o.annotations, i);
    }
  }

  ghost predicate Unsynced(ks: KeySet, o: Obj) {
    forall d :: d in ks.Each() ==> d.syncAnnotation !in o.annotations
  }

  ghost predicate Unfinalized(ks: KeySet, o: Obj) {
    forall d :: d in ks.Each() ==> d.finalizer !in o.finalizers
  }

  /** The primary finalizer is on o and no legacy one. */
  ghost predicate FinalizedAnew(ks: KeySet, o: Obj) {
    ks.primary.finalizer in o.finalizers && forall d :: d in ks.legacy ==> d.finalizer !in o.finalizers
  }

  /** The branch reconcileSource takes, read off the source: torn down or left when it is on its
      way out or without a sync annotation, depending on its finalizers; else its finalizers
      come first, and then what its selector parses to. */
  lemma BranchReadOff(cfg: Config, o: Obj)
    requires cfg.ks.Sound()
    ensures o.deleting || Unsynced(cfg.ks, o) ==>
              BranchOf(cfg, Some(o)) == if Unfinalized(cfg.ks, o) then Nothing else CleanUp
    ensures !o.deleting && !Unsynced(cfg.ks, o) && !FinalizedAnew(cfg.ks, o) ==> BranchOf(cfg, Some(o)) == FixFinalizers
    ensures forall i :: !o.deleting && SyncedFirst(cfg.ks, i, o) && FinalizedAnew(cfg.ks, o) ==>
              BranchOf(cfg, Some(o)) == match cfg.parse(o.annotations[cfg.ks.Each()[i].syncAnnotation])
                                        case None => BadSelector
                                        case Some(sel) => Replicate(sel)
  {
    MigratedFinalizersMeaning(cfg.ks, o.finalizers);
    forall i | SyncedFirst(cfg.ks, i, o) ensures SelectorText(cfg.ks, o) == o.annotations[cfg.ks.Each()[i].syncAnnotation] {
      SelectorIsTheValue(cfg.ks, i, o);
      assert cfg.ks.Each()[i] in cfg.ks.Each();
    }
    hide SelectorText;
    hide KeySet.MigratedFinalizers;
    hide KeySet.Sound;
  }
}
