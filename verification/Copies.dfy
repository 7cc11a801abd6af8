/** The meaning of upsertCopy, deleteCopies and a full sync pass
    (internal/controller/syncer.go), one object key at a time. Everything a pass
    does to a key depends only on what that key held before. */
module Copies {
  import opened Objects
  import opened KeySets

  // -------------------------------------------------------------- upsertCopy

  /** contentEqual: labels, annotations and payload. */
  predicate ContentEqual(a: Obj, b: Obj) {
    a.labels == b.labels && a.annotations == b.annotations && a.payload == b.payload
  }

  /** An existing object rewritten as a copy of src: its finalizers and deletion mark stay. */
  function Mirror(ks: KeySet, sk: Key, src: Obj, had: Obj, originCluster: string): Obj {
    had.(labels := ks.CopyLabels(sk, src, originCluster),
         annotations := ks.CopyAnnotations(src),
         payload := src.payload)
  }

  function FreshCopy(ks: KeySet, sk: Key, src: Obj, originCluster: string): Obj {
    Obj(ks.CopyLabels(sk, src, originCluster), ks.CopyAnnotations(src), [], false, src.payload)
  }

  datatype Verdict = Create | Refuse | Conflict | Keep | Migrate(from: string) | Refresh | Adopt {
    predicate Writes() {
      !Refuse? && !Conflict? && !Keep?
    }
  }

  /** The decision upsertCopy takes after its Get. */
  function Judge(ks: KeySet, sk: Key, src: Obj, had: Option<Obj>, originCluster: string): Verdict {
    match had
    case None => Create
    case Some(e) =>
      if !ks.IsManagedCopy(e) then
        if IsAdoptable(e) then Adopt else Refuse
      else if !ks.OwnsCopy(e, sk, originCluster) then Conflict
      else if ContentEqual(e, Mirror(ks, sk, src, e, originCluster)) then Keep
      else match ks.LegacyDomainOf(e)
        case Some(d) => Migrate(d)
        case None => Refresh
  }

  /** What a target key holds after upsertCopy. */
  function Placed(ks: KeySet, sk: Key, src: Obj, had: Option<Obj>, originCluster: string): Option<Obj> {
    match Judge(ks, sk, src, had, originCluster)
    case Create => Some(FreshCopy(ks, sk, src, originCluster))
    case Refuse => had
    case Conflict => had
    case Keep => had
    case _ => Some(Mirror(ks, sk, src, had.value, originCluster))
  }

  /** An object upsertCopy must leave alone: unmanaged and not left by
      config-syncer, or another source's (or another hub's) copy. */
  predicate Untouchable(ks: KeySet, sk: Key, o: Obj, originCluster: string) {
    if ks.IsManagedCopy(o) then !ks.OwnsCopy(o, sk, originCluster) else !IsAdoptable(o)
  }

  // ------------------------------------------------------------- deleteCopies

  /** Selected by one of managedListOpts' label matchers. */
  predicate Stamped(ks: KeySet, sk: Key, o: Obj) {
    exists k :: k in ks.Each() && MatchesStamp(k, o.labels, sk)
  }

  /** Stamped by another hub, when hubs are told apart at all. */
  predicate Foreign(ks: KeySet, o: Obj, originCluster: string) {
    originCluster != "" && ks.OriginCluster(o) != "" && ks.OriginCluster(o) != originCluster
  }

  predicate Doomed(ks: KeySet, sk: Key, o: Obj, originCluster: string) {
    Stamped(ks, sk, o) && !Foreign(ks, o, originCluster)
  }

  predicate SweptAway(ks: KeySet, sk: Key, keep: set<string>, originCluster: string, k: Key, had: Option<Obj>) {
    had.Some? && k.ns !in keep && Doomed(ks, sk, had.value, originCluster)
  }

  function SweptAt(ks: KeySet, sk: Key, keep: set<string>, originCluster: string, k: Key, had: Option<Obj>): Option<Obj> {
    if SweptAway(ks, sk, keep, originCluster, k, had) then AfterDelete(had.value) else had
  }

  /** The side condition deleteCopies' dedupe by namespace rests on: what is
      stamped for sk bears sk's name. */
  ghost predicate Named(ks: KeySet, s: Store, sk: Key) {
    forall k :: k in s && Stamped(ks, sk, s[k]) ==> k.name == sk.name
  }

  // ---------------------------------------------------------------- sync pass

  predicate IsTarget(sk: Key, targets: set<string>, k: Key) {
    k.name == sk.name && k.ns in targets
  }

  /** What key k holds after upserting into targets and pruning the rest. */
  function SyncedAt(ks: KeySet, sk: Key, src: Obj, targets: set<string>, originCluster: string,
                    k: Key, had: Option<Obj>): Option<Obj> {
    if IsTarget(sk, targets, k) then Placed(ks, sk, src, had, originCluster)
    else SweptAt(ks, sk, targets, originCluster, k, had)
  }

  ghost predicate Synced(ks: KeySet, sk: Key, src: Obj, targets: set<string>, originCluster: string,
                         before: Store, after: Store) {
    forall k: Key :: At(after, k) == SyncedAt(ks, sk, src, targets, originCluster, k, At(before, k))
  }

  /** Whether a pass issues a write call for key k. */
  predicate SyncWrites(ks: KeySet, sk: Key, src: Obj, targets: set<string>, originCluster: string,
                       k: Key, had: Option<Obj>) {
    if IsTarget(sk, targets, k) then Judge(ks, sk, src, had, originCluster).Writes()
    else SweptAway(ks, sk, targets, originCluster, k, had)
  }

  /** A state a pass may be left in by a failure: each key is as before or as after a full pass. */
  ghost predicate PartlySynced(ks: KeySet, sk: Key, src: Obj, targets: set<string>, originCluster: string,
                               before: Store, now: Store) {
    forall k: Key :: At(now, k) == At(before, k)
                     || At(now, k) == SyncedAt(ks, sk, src, targets, originCluster, k, At(before, k))
  }

  // ---------------------------------------------------- what a copy looks like

  lemma CopyLabelsLookup(ks: KeySet, sk: Key, src: Obj, oc: string)
    requires ks.Sound()
    ensures var ls := ks.CopyLabels(sk, src, oc);
            && Managed(ks.primary, ls)
            && MatchesStamp(ks.primary, ls, sk)
            && Lookup(ls, ks.primary.originClusterLabel)
                 == (if oc != "" then oc else Lookup(src.labels, ks.primary.originClusterLabel))
    ensures forall k :: k in ks.legacy ==>
              Managed(k, ks.CopyLabels(sk, src, oc)) == Managed(k, src.labels)
  {
    assert ks.primary in ks.Each() && SelfApart(ks.primary);
    forall k | k in ks.legacy
      ensures Managed(k, ks.CopyLabels(sk, src, oc)) == Managed(k, src.labels)
    {
      assert k in ks.Each() && Apart(k, ks.primary);
    }
  }

  lemma PrimaryFirst(ks: KeySet, o: Obj)
    requires Managed(ks.primary, o.labels)
    ensures ks.KeysFor(o) == Some(ks.primary)
  {
    assert ks.Each()[0] == ks.primary;
  }

  /** A written copy is recognised under the primary domain, maps back to its
      source, and is never itself a source, under any honoured domain. */
  lemma WrittenCopyIsRecognised(ks: KeySet, sk: Key, src: Obj, o: Obj, oc: string)
    requires ks.Sound() && sk.ns != "" && sk.name != ""
    requires o.labels == ks.CopyLabels(sk, src, oc) && o.annotations == ks.CopyAnnotations(src)
    ensures ks.KeysFor(o) == Some(ks.primary)
    ensures ks.CopyOrigin(o) == Some(sk)
    ensures ks.LegacyDomainOf(o) == None
    ensures !ks.IsSource(o)
    ensures Stamped(ks, sk, o)
    ensures ks.OwnsCopy(o, sk, oc)
    ensures oc != "" ==> ks.OriginCluster(o) == oc
  {
    CopyLabelsLookup(ks, sk, src, oc);
    PrimaryFirst(ks, o);
    assert ks.primary in ks.Each();
    forall k | k in ks.Each() ensures k.syncAnnotation !in o.annotations {
      assert ks.IsSyncKey(k.syncAnnotation);
    }
  }

  /** A written copy carries exactly one domain's managed-by mark if and only if
      the source's own labels carry no legacy one. */
  lemma SingleStampIff(ks: KeySet, sk: Key, src: Obj, oc: string)
    requires ks.Sound()
    ensures ks.SingleStamp(ks.CopyLabels(sk, src, oc))
            <==> forall k :: k in ks.legacy ==> !Managed(k, src.labels)
  {
    CopyLabelsLookup(ks, sk, src, oc);
    var ls := ks.CopyLabels(sk, src, oc);
    assert ks.primary in ks.Each();
    if ks.SingleStamp(ls) {
      forall k | k in ks.legacy ensures !Managed(k, src.labels) {
        assert k in ks.Each() && k != ks.primary;
      }
    }
  }

  lemma CleanGivesSingleStamp(ks: KeySet, sk: Key, src: Obj, oc: string)
    requires ks.Sound() && ks.Clean(src.labels)
    ensures ks.SingleStamp(ks.CopyLabels(sk, src, oc))
    ensures forall k :: k in ks.Each() && Managed(k, ks.CopyLabels(sk, src, oc)) ==> k == ks.primary
    ensures Lookup(ks.CopyLabels(sk, src, oc), ks.primary.originClusterLabel) == oc
  {
    assert forall k :: k in ks.legacy ==> k in ks.Each();
    assert ks.primary in ks.Each();
    CopyLabelsLookup(ks, sk, src, oc);
    SingleStampIff(ks, sk, src, oc);
  }

  /** A copy still under a legacy domain never counts as up to date: it is always migrated. */
  lemma LegacyCopyIsRewritten(ks: KeySet, sk: Key, src: Obj, e: Obj, oc: string)
    requires ks.Sound()
    requires ks.LegacyDomainOf(e).Some? && ks.OwnsCopy(e, sk, oc)
    ensures Judge(ks, sk, src, Some(e), oc) == Migrate(ks.LegacyDomainOf(e).value)
  {
    CopyLabelsLookup(ks, sk, src, oc);
  }

  /** The Refuse/Conflict branches are taken exactly on untouchable objects, and
      they are the only reason a target does not end up holding the copy. */
  lemma PlacedMeaning(ks: KeySet, sk: Key, src: Obj, had: Option<Obj>, oc: string)
    requires ks.Sound()
    ensures had.Some? && Untouchable(ks, sk, had.value, oc) ==>
              Placed(ks, sk, src, had, oc) == had && !Judge(ks, sk, src, had, oc).Writes()
    ensures !(had.Some? && Untouchable(ks, sk, had.value, oc)) ==>
              var now := Placed(ks, sk, src, had, oc);
              && now.Some?
              && now.value.labels == ks.CopyLabels(sk, src, oc)
              && now.value.annotations == ks.CopyAnnotations(src)
              && now.value.payload == src.payload
              && now.value.finalizers == (if had.Some? then had.value.finalizers else [])
              && now.value.deleting == (had.Some? && had.value.deleting)
              && (Judge(ks, sk, src, had, oc).Writes() <==> now != had)
  {
    if had.Some? && ks.IsManagedCopy(had.value) && ks.OwnsCopy(had.value, sk, oc) {
      var m := Mirror(ks, sk, src, had.value, oc);
      assert ContentEqual(had.value, m) <==> had.value == m;
    } else if had.Some? && !ks.IsManagedCopy(had.value) {
      AdoptionChanges(ks, sk, src, had.value, oc);
    }
  }

  lemma AdoptionChanges(ks: KeySet, sk: Key, src: Obj, e: Obj, oc: string)
    requires ks.Sound() && !ks.IsManagedCopy(e)
    ensures Mirror(ks, sk, src, e, oc) != e
  {
    CopyLabelsLookup(ks, sk, src, oc);
    assert ks.primary in ks.Each() && !Managed(ks.primary, e.labels);
  }
}
