/** The dual-domain key contract (internal/controller/keyset.go and the per-domain
    predicates of internal/controller/replikate.go). */
module KeySets {
  import opened Objects
  import opened Keys
  import Text

  // ---------------------------------------------------------------- one domain

  predicate Managed(k: Keys, labels: Labels) {
    Lookup(labels, k.managedByLabel) == ManagedByValue
  }

  /** client.MatchingLabels of managedListOpts for one domain. */
  predicate MatchesStamp(k: Keys, labels: Labels, sk: Key) {
    && k.managedByLabel in labels && labels[k.managedByLabel] == ManagedByValue
    && k.originNSLabel in labels && labels[k.originNSLabel] == sk.ns
    && k.originNameLabel in labels && labels[k.originNameLabel] == sk.name
  }

  predicate OwnsUnder(k: Keys, labels: Labels, sk: Key, originCluster: string) {
    && Lookup(labels, k.originNSLabel) == sk.ns
    && Lookup(labels, k.originNameLabel) == sk.name
    && !(originCluster != ""
         && Lookup(labels, k.originClusterLabel) != ""
         && Lookup(labels, k.originClusterLabel) != originCluster)
  }

  predicate IsAdoptable(o: Obj) {
    || KubedOriginPrefix in o.annotations
    || exists l :: l in o.labels && KubedOriginPrefix <= l
  }

  function FirstManaged(ds: seq<Keys>, labels: Labels): (r: Option<Keys>)
    ensures r.Some? ==> r.value in ds && Managed(r.value, labels)
    ensures r.None? ==> forall k :: k in ds ==> !Managed(k, labels)
  {
    if ds == [] then None
    else if Managed(ds[0], labels) then Some(ds[0])
    else FirstManaged(ds[1..], labels)
  }

  function FirstSync(ds: seq<Keys>, ann: Labels): (r: Option<(string, string)>)
    ensures r.Some? <==> exists k :: k in ds && k.syncAnnotation in ann
  {
    if ds == [] then None
    else if ds[0].syncAnnotation in ann then Some((ds[0].syncAnnotation, ann[ds[0].syncAnnotation]))
    else FirstSync(ds[1..], ann)
  }

  function FirstTargets(ds: seq<Keys>, ann: Labels): (r: Option<string>)
    ensures r.Some? <==> exists k :: k in ds && k.targetClustersAnnotation in ann
  {
    if ds == [] then None
    else if ds[0].targetClustersAnnotation in ann then Some(ann[ds[0].targetClustersAnnotation])
    else FirstTargets(ds[1..], ann)
  }

  // --------------------------------------------------------------- finalizers

  /** controllerutil.AddFinalizer */
  function Add(fs: seq<string>, f: string): seq<string> {
    if f in fs then fs else fs + [f]
  }

  /** controllerutil.RemoveFinalizer: every occurrence goes. */
  function Remove(fs: seq<string>, f: string): (r: seq<string>)
    ensures forall x :: x in r <==> x in fs && x != f
    ensures |r| <= |fs|
    ensures f in fs ==> |r| < |fs|
    ensures f !in fs ==> r == fs
  {
    if fs == [] then []
    else if fs[0] == f then Remove(fs[1..], f)
    else [fs[0]] + Remove(fs[1..], f)
  }

  function RemoveEach(fs: seq<string>, ds: seq<Keys>): (r: seq<string>)
    ensures forall x :: x in r <==> x in fs && forall k :: k in ds ==> x != k.finalizer
    ensures |r| <= |fs|
    ensures (forall k :: k in ds ==> k.finalizer !in fs) <==> r == fs
    ensures r != fs ==> |r| < |fs|
    decreases |ds|
  {
    if ds == [] then fs else RemoveEach(Remove(fs, ds[0].finalizer), ds[1..])
  }

  // ------------------------------------------------------------- the key set

  datatype KeySet = KeySet(primary: Keys, legacy: seq<Keys>) {

    function Each(): seq<Keys> {
      [primary] + legacy
    }

    function KeysFor(o: Obj): Option<Keys> {
      FirstManaged(Each(), o.labels)
    }

    predicate IsSource(o: Obj) {
      exists k :: k in Each() && k.syncAnnotation in o.annotations
    }

    function SyncValue(ann: Labels): Option<(string, string)> {
      FirstSync(Each(), ann)
    }

    function TargetClustersValue(ann: Labels): Option<string> {
      FirstTargets(Each(), ann)
    }

    predicate IsManagedCopy(o: Obj) {
      KeysFor(o).Some?
    }

    predicate OwnsCopy(copy: Obj, sk: Key, originCluster: string) {
      var k := KeysFor(copy);
      k.Some? && OwnsUnder(k.value, copy.labels, sk, originCluster)
    }

    function OriginCluster(copy: Obj): string {
      match KeysFor(copy)
      case None => ""
      case Some(k) => Lookup(copy.labels, k.originClusterLabel)
    }

    /** copyOrigin: the source a managed copy points back at. */
    function CopyOrigin(o: Obj): Option<Key> {
      match KeysFor(o)
      case None => None
      case Some(k) =>
        var origin := Key(Lookup(o.labels, k.originNSLabel), Lookup(o.labels, k.originNameLabel));
        if origin.ns != "" && origin.name != "" then Some(origin) else None
    }

    /** legacyDomainOf, with None for Go's "": stamped under the primary, or not managed. */
    function LegacyDomainOf(copy: Obj): Option<string> {
      if Managed(primary, copy.labels) then None
      else match FirstManaged(legacy, copy.labels)
        case None => None
        case Some(k) => Some(k.domain)
    }

    predicate IsSyncKey(key: string) {
      exists k :: k in Each() && key == k.syncAnnotation
    }

    predicate HasFinalizer(o: Obj) {
      exists k :: k in Each() && k.finalizer in o.finalizers
    }

    function MigratedFinalizers(fs: seq<string>): seq<string> {
      RemoveEach(Add(fs, primary.finalizer), legacy)
    }

    function ReleasedFinalizers(fs: seq<string>): seq<string> {
      RemoveEach(fs, Each())
    }

    /** The labels applyCopyMeta gives a copy of src. */
    function CopyLabels(sk: Key, src: Obj, originCluster: string): Labels {
      var stamped := src.labels[primary.managedByLabel := ManagedByValue]
                               [primary.originNSLabel := sk.ns]
                               [primary.originNameLabel := sk.name];
      if originCluster != "" then stamped[primary.originClusterLabel := originCluster] else stamped
    }

    /** The annotations applyCopyMeta gives a copy of src. */
    function CopyAnnotations(src: Obj): Labels {
      map a | a in src.annotations && a != LastAppliedAnnotation && !IsSyncKey(a) :: src.annotations[a]
    }

    /** No key of any honoured domain's stamp occurs in these labels. */
    ghost predicate Clean(labels: Labels) {
      forall k :: k in Each() ==>
        k.managedByLabel !in labels && k.originNSLabel !in labels
        && k.originNameLabel !in labels && k.originClusterLabel !in labels
    }

    /** At most one honoured domain marks these labels as a managed copy. */
    ghost predicate SingleStamp(labels: Labels) {
      forall a, b :: a in Each() && b in Each() && Managed(a, labels) && Managed(b, labels) ==> a == b
    }

    /** What NewKeySet guarantees and everything else builds on: keys of
        different domains, and different keys of one domain, never collide. */
    ghost predicate Sound() {
      && primary !in legacy
      && (forall k :: k in Each() ==> SelfApart(k))
      && (forall a, b :: a in Each() && b in Each() && a != b ==> Apart(a, b))
    }
  }

  ghost predicate NotInStamp(x: string, k: Keys) {
    x != k.managedByLabel && x != k.originNSLabel && x != k.originNameLabel && x != k.originClusterLabel
  }

  ghost predicate SelfApart(k: Keys) {
    && k.managedByLabel != k.originNSLabel && k.managedByLabel != k.originNameLabel
    && k.managedByLabel != k.originClusterLabel && k.originNSLabel != k.originNameLabel
    && k.originNSLabel != k.originClusterLabel && k.originNameLabel != k.originClusterLabel
  }

  ghost predicate Apart(a: Keys, b: Keys) {
    && a.domain != b.domain
    && a.syncAnnotation != b.syncAnnotation
    && a.finalizer != b.finalizer
    && NotInStamp(a.managedByLabel, b) && NotInStamp(a.originNSLabel, b)
    && NotInStamp(a.originNameLabel, b) && NotInStamp(a.originClusterLabel, b)
  }

  // ---------------------------------------------------------------- NewKeySet

  /** The legacy domains NewKeySet keeps, in order. */
  function KeptDomains(primaryDomain: string, legacyDomains: seq<string>): seq<string> {
    if legacyDomains == [] then []
    else
      var d := Text.TrimSpace(legacyDomains[0]);
      (if d == "" || d == primaryDomain then [] else [d]) + KeptDomains(primaryDomain, legacyDomains[1..])
  }

  function KeysOf(domains: seq<string>): (r: seq<Keys>)
    ensures |r| == |domains|
    ensures forall i :: 0 <= i < |r| ==> r[i] == NewKeys(domains[i]) && r[i].domain == domains[i]
  {
    seq(|domains|, i requires 0 <= i < |domains| => NewKeys(domains[i]))
  }

  lemma {:induction false} KeptDomainsSnoc(p: string, ds: seq<string>, d: string)
    ensures var t := Text.TrimSpace(d);
            KeptDomains(p, ds + [d]) == KeptDomains(p, ds) + (if t == "" || t == p then [] else [t])
  {
    if ds == [] {
      assert ds + [d] == [d] && [d][1..] == [];
    } else {
      assert (ds + [d])[1..] == ds[1..] + [d];
      KeptDomainsSnoc(p, ds[1..], d);
    }
  }

  lemma {:induction false} KeptDomainsAvoidPrimary(p: string, ds: seq<string>)
    ensures p !in KeptDomains(p, ds) && "" !in KeptDomains(p, ds)
  {
    if ds != [] {
      KeptDomainsAvoidPrimary(p, ds[1..]);
    }
  }

  lemma NotInStampByKinds(x: string, y: Keys)
    requires forall j: Kind :: x != KeyOf(y, j)
    ensures NotInStamp(x, y)
  {
    assert x != KeyOf(y, ManagedBy) && x != KeyOf(y, OriginNS);
    assert x != KeyOf(y, OriginName) && x != KeyOf(y, OriginCluster);
  }

  lemma ApartByKinds(x: Keys, y: Keys)
    requires x.domain != y.domain
    requires forall i: Kind, j: Kind :: KeyOf(x, i) != KeyOf(y, j)
    ensures Apart(x, y)
  {
    NotInStampByKinds(KeyOf(x, ManagedBy), y);
    NotInStampByKinds(KeyOf(x, OriginNS), y);
    NotInStampByKinds(KeyOf(x, OriginName), y);
    NotInStampByKinds(KeyOf(x, OriginCluster), y);
    assert KeyOf(x, Sync) != KeyOf(y, Sync);
    assert KeyOf(x, Finalizer) != KeyOf(y, Finalizer);
  }

  lemma SelfApartByKinds(x: Keys)
    requires forall i: Kind, j: Kind :: i != j ==> KeyOf(x, i) != KeyOf(x, j)
    ensures SelfApart(x)
  {
    assert KeyOf(x, ManagedBy) != KeyOf(x, OriginNS);
    assert KeyOf(x, ManagedBy) != KeyOf(x, OriginName);
    assert KeyOf(x, ManagedBy) != KeyOf(x, OriginCluster);
    assert KeyOf(x, OriginNS) != KeyOf(x, OriginName);
    assert KeyOf(x, OriginNS) != KeyOf(x, OriginCluster);
    assert KeyOf(x, OriginName) != KeyOf(x, OriginCluster);
  }

  lemma NewKeysApart(x: Keys, y: Keys)
    requires x == NewKeys(x.domain) && y == NewKeys(y.domain)
    ensures SelfApart(x)
    ensures x != y ==> Apart(x, y)
  {
    forall i: Kind, j: Kind
      ensures i != j ==> KeyOf(x, i) != KeyOf(x, j)
      ensures x.domain != y.domain ==> KeyOf(x, i) != KeyOf(y, j)
    {
      NewKeysInjective(x.domain, i, x.domain, j);
      NewKeysInjective(x.domain, i, y.domain, j);
    }
    SelfApartByKinds(x);
    if x.domain != y.domain {
      ApartByKinds(x, y);
    }
  }

  /** No key of the set, of whatever kind, equals another. */
  ghost predicate NoCollision(ks: KeySet) {
    forall a, b, i: Kind, j: Kind :: a in ks.Each() && b in ks.Each() && KeyOf(a, i) == KeyOf(b, j) ==> a == b && i == j
  }

  lemma NewKeySetCollidesNowhere(p: string, ds: seq<string>)
    ensures NoCollision(KeySet(NewKeys(p), KeysOf(KeptDomains(p, ds))))
  {
    var ks := KeySet(NewKeys(p), KeysOf(KeptDomains(p, ds)));
    forall a, b, i: Kind, j: Kind | a in ks.Each() && b in ks.Each() && KeyOf(a, i) == KeyOf(b, j)
      ensures a == b && i == j
    {
      assert a == NewKeys(a.domain) && b == NewKeys(b.domain);
      NewKeysInjective(a.domain, i, b.domain, j);
    }
  }

  /** Every key set that NewKeySet can build is sound, and no key of it collides with another. */
  lemma NewKeySetSound(p: string, ds: seq<string>)
    ensures KeySet(NewKeys(p), KeysOf(KeptDomains(p, ds))).Sound()
    ensures NoCollision(KeySet(NewKeys(p), KeysOf(KeptDomains(p, ds))))
  {
    NewKeySetCollidesNowhere(p, ds);
    KeptDomainsAvoidPrimary(p, ds);
    var domains := [p] + KeptDomains(p, ds);
    var ks := KeySet(NewKeys(p), KeysOf(KeptDomains(p, ds)));
    assert forall i :: 0 <= i < |domains| ==> ks.Each()[i] == NewKeys(domains[i]);
    forall a, b | a in ks.Each() && b in ks.Each() ensures SelfApart(a) && (a != b ==> Apart(a, b)) {
      NewKeysApart(a, b);
    }
  }

  method NewKeySet(primaryDomain: string, legacyDomains: seq<string>) returns (ks: KeySet)
    ensures ks.primary == NewKeys(primaryDomain)
    ensures ks.legacy == KeysOf(KeptDomains(primaryDomain, legacyDomains))
    ensures ks.Sound() && NoCollision(ks)
  {
    var legacy: seq<Keys> := [];
    for i := 0 to |legacyDomains|
      invariant legacy == KeysOf(KeptDomains(primaryDomain, legacyDomains[..i]))
    {
      assert legacyDomains[..i + 1] == legacyDomains[..i] + [legacyDomains[i]];
      KeptDomainsSnoc(primaryDomain, legacyDomains[..i], legacyDomains[i]);
      var d := Text.TrimSpace(legacyDomains[i]);
      if d == "" || d == primaryDomain {
        continue;
      }
      legacy := legacy + [NewKeys(d)];
    }
    assert legacyDomains[..|legacyDomains|] == legacyDomains;
    NewKeySetSound(primaryDomain, legacyDomains);
    ks := KeySet(NewKeys(primaryDomain), legacy);
  }

  ghost predicate NoRepeat<T>(s: seq<T>) {
    forall i, j :: 0 <= i < j < |s| ==> s[i] != s[j]
  }

  lemma SameRepeats(domains: seq<string>, each: seq<Keys>)
    requires |each| == |domains|
    requires forall i :: 0 <= i < |each| ==> each[i].domain == domains[i]
    requires forall i, j :: 0 <= i < |each| && 0 <= j < |each| && domains[i] == domains[j] ==> each[i] == each[j]
    ensures NoRepeat(each) <==> NoRepeat(domains)
  {
    if NoRepeat(each) {
      forall i, j | 0 <= i < j < |domains| ensures domains[i] != domains[j] {
        assert each[i] != each[j];
      }
    }
  }

  lemma {:induction false} KeptMember(p: string, ds: seq<string>, x: string)
    ensures x in KeptDomains(p, ds) <==> x != "" && x != p && exists i :: 0 <= i < |ds| && Text.TrimSpace(ds[i]) == x
  {
    if ds != [] {
      KeptMember(p, ds[1..], x);
      if i :| 0 <= i < |ds[1..]| && Text.TrimSpace(ds[1..][i]) == x {
        assert Text.TrimSpace(ds[i + 1]) == x;
      }
      if i :| 0 <= i < |ds| && Text.TrimSpace(ds[i]) == x {
        assert i > 0 ==> ds[1..][i - 1] == ds[i];
      }
    }
  }

  lemma NoRepeatCons<T>(x: T, rest: seq<T>)
    ensures NoRepeat([x] + rest) <==> x !in rest && NoRepeat(rest)
  {
    var s := [x] + rest;
    if NoRepeat(s) {
      forall i | 0 <= i < |rest| ensures rest[i] != x {
        assert s[0] != s[i + 1];
      }
      forall i, j | 0 <= i < j < |rest| ensures rest[i] != rest[j] {
        assert s[i + 1] != s[j + 1];
      }
    }
  }

  /** No two configured legacy domains are the same once trimmed, blanks and the primary aside. */
  predicate GivenOnce(p: string, ds: seq<string>) {
    forall i, j :: 0 <= i < j < |ds| && Text.TrimSpace(ds[i]) == Text.TrimSpace(ds[j]) ==>
      Text.TrimSpace(ds[i]) in {"", p}
  }

  lemma GivenOnceCons(p: string, ds: seq<string>)
    requires ds != []
    ensures GivenOnce(p, ds) <==>
              GivenOnce(p, ds[1..])
              && (Text.TrimSpace(ds[0]) in {"", p} || forall i :: 0 <= i < |ds[1..]| ==> Text.TrimSpace(ds[1..][i]) != Text.TrimSpace(ds[0]))
  {
    var rest := ds[1..];
    assert forall i :: 0 <= i < |rest| ==> rest[i] == ds[i + 1];
    if GivenOnce(p, ds) {
      forall i, j | 0 <= i < j < |rest| && Text.TrimSpace(rest[i]) == Text.TrimSpace(rest[j])
        ensures Text.TrimSpace(rest[i]) in {"", p}
      {
        assert Text.TrimSpace(ds[i + 1]) == Text.TrimSpace(ds[j + 1]);
      }
    }
    if GivenOnce(p, rest) {
      forall i, j | 0 < i < j < |ds| && Text.TrimSpace(ds[i]) == Text.TrimSpace(ds[j])
        ensures Text.TrimSpace(ds[i]) in {"", p}
      {
        assert Text.TrimSpace(rest[i - 1]) == Text.TrimSpace(rest[j - 1]);
      }
    }
    assert forall j :: 0 < j < |ds| ==> ds[j] == rest[j - 1];
  }

  lemma {:induction false} KeptOnceIff(p: string, ds: seq<string>)
    ensures NoRepeat(KeptDomains(p, ds)) <==> GivenOnce(p, ds)
  {
    if ds != [] {
      var d, rest := Text.TrimSpace(ds[0]), ds[1..];
      KeptOnceIff(p, rest);
      GivenOnceCons(p, ds);
      KeptMember(p, rest, d);
      NoRepeatCons(d, KeptDomains(p, rest));
      assert [] + KeptDomains(p, rest) == KeptDomains(p, rest);
    }
  }

  /** The set lists no domain twice exactly when the configured legacy domains, trimmed,
      repeat nothing but blanks and the primary: those NewKeySet drops, repeats it keeps. */
  lemma ListsNoDomainTwiceIff(p: string, ds: seq<string>)
    ensures NoRepeat(KeySet(NewKeys(p), KeysOf(KeptDomains(p, ds))).Each()) <==> GivenOnce(p, ds)
  {
    var kept := KeptDomains(p, ds);
    KeptDomainsAvoidPrimary(p, ds);
    KeptOnceIff(p, ds);
    NoRepeatCons(p, kept);
    ListsAsKept(p, kept);
    hide NoRepeat;
    hide GivenOnce;
  }

  lemma ListsAsKept(p: string, kept: seq<string>)
    ensures NoRepeat(KeySet(NewKeys(p), KeysOf(kept)).Each()) <==> NoRepeat([p] + kept)
  {
    var each := KeySet(NewKeys(p), KeysOf(kept)).Each();
    assert forall i :: 0 <= i < |each| ==> each[i] == NewKeys(([p] + kept)[i]);
    SameRepeats([p] + kept, each);
  }

  lemma RepeatedLegacyDomainIsKept()
    ensures KeptDomains("new", ["old", " old "]) == ["old", "old"]
  {
    var ds := ["old", " old "];
    assert ds[1..] == [" old "] && ds[1..][1..] == [];
    assert Text.TrimLeft(" old ") == "old " by {
      assert " old "[1..] == "old ";
    }
    assert Text.TrimRight("old ") == "old" by {
      assert "old "[..3] == "old";
    }
    assert KeptDomains("new", ds[1..]) == ["old"] + KeptDomains("new", []);
  }

  // --------------------------------------------- methods that change an object

  /** reconcileFinalizer: add the primary finalizer, drop every legacy one. */
  method ReconcileFinalizer(ks: KeySet, obj: Obj) returns (out: Obj, changed: bool)
    ensures out == obj.(finalizers := ks.MigratedFinalizers(obj.finalizers))
    ensures ks.Sound() ==> (changed <==> out != obj)
  {
    out, changed := obj, false;
    if ks.primary.finalizer !in out.finalizers {
      out, changed := out.(finalizers := Add(out.finalizers, ks.primary.finalizer)), true;
    }
    ghost var added := out.finalizers;
    for i := 0 to |ks.legacy|
      invariant out == obj.(finalizers := out.finalizers)
      invariant RemoveEach(added, ks.legacy) == RemoveEach(out.finalizers, ks.legacy[i..])
      invariant ks.Sound() ==> ks.primary.finalizer in out.finalizers
      invariant ks.Sound() ==> (changed <==> obj.finalizers != out.finalizers)
      invariant |out.finalizers| <= |added|
      invariant out.finalizers != added ==> |out.finalizers| < |added|
      invariant ks.Sound() && ks.primary.finalizer !in obj.finalizers ==> changed
    {
      var f := ks.legacy[i].finalizer;
      assert ks.legacy[i] in ks.Each() && ks.primary in ks.Each();
      assert ks.Sound() ==> Apart(ks.primary, ks.legacy[i]);
      assert ks.legacy[i..][1..] == ks.legacy[i + 1..];
      if f in out.finalizers {
        out, changed := out.(finalizers := Remove(out.finalizers, f)), true;
      }
    }
  }

  /** removeAllFinalizers */
  method RemoveAllFinalizers(ks: KeySet, obj: Obj) returns (out: Obj)
    ensures out == obj.(finalizers := ks.ReleasedFinalizers(obj.finalizers))
  {
    var each := ks.Each();
    out := obj;
    for i := 0 to |each|
      invariant out == obj.(finalizers := out.finalizers)
      invariant RemoveEach(obj.finalizers, each) == RemoveEach(out.finalizers, each[i..])
    {
      assert each[i..][1..] == each[i + 1..];
      out := out.(finalizers := Remove(out.finalizers, each[i].finalizer));
    }
  }

  /** applyCopyMeta: mirror src's labels and annotations onto dst and stamp the primary domain. */
  method ApplyCopyMeta(ks: KeySet, sk: Key, src: Obj, dst: Obj, originCluster: string) returns (out: Obj)
    ensures out == dst.(labels := ks.CopyLabels(sk, src, originCluster), annotations := ks.CopyAnnotations(src))
  {
    var labels := src.labels;
    labels := labels[ks.primary.managedByLabel := ManagedByValue];
    labels := labels[ks.primary.originNSLabel := sk.ns];
    labels := labels[ks.primary.originNameLabel := sk.name];
    if originCluster != "" {
      labels := labels[ks.primary.originClusterLabel := originCluster];
    }
    var ann: Labels := map[];
    var rest := src.annotations.Keys;
    while rest != {}
      invariant rest <= src.annotations.Keys
      invariant ann == map a | a in src.annotations && a !in rest && a != LastAppliedAnnotation && !ks.IsSyncKey(a)
                           :: src.annotations[a]
    {
      var key :| key in rest;
      rest := rest - {key};
      if key == LastAppliedAnnotation || ks.IsSyncKey(key) {
        continue;
      }
      ann := ann[key := src.annotations[key]];
    }
    out := dst.(labels := labels, annotations := ann);
  }

  // ------------------------------------------------------ what the parts mean

  /** After a finalizer pass the primary finalizer is there, no legacy one is,
      and every foreign finalizer is as before. */
  lemma MigratedFinalizersMeaning(ks: KeySet, fs: seq<string>)
    requires ks.Sound()
    ensures forall f :: f in ks.MigratedFinalizers(fs) <==>
              f == ks.primary.finalizer || (f in fs && forall k :: k in ks.legacy ==> f != k.finalizer)
    ensures ks.MigratedFinalizers(ks.MigratedFinalizers(fs)) == ks.MigratedFinalizers(fs)
    ensures ks.MigratedFinalizers(fs) == fs <==>
              ks.primary.finalizer in fs && forall k :: k in ks.legacy ==> k.finalizer !in fs
  {
    assert forall k :: k in ks.legacy ==> k in ks.Each();
    assert forall k :: k in ks.legacy ==> Apart(ks.primary, k);
    var once := ks.MigratedFinalizers(fs);
    assert Add(once, ks.primary.finalizer) == once;
  }

  /** Under one stamp, the three ways of reading a copy's owner agree: the label
      selector of deleteCopies, ownsCopy on the local path, and copyOrigin. */
  lemma OwnerReadingsAgree(ks: KeySet, o: Obj, sk: Key)
    requires ks.SingleStamp(o.labels) && sk.ns != "" && sk.name != ""
    ensures (exists k :: k in ks.Each() && MatchesStamp(k, o.labels, sk)) <==> ks.CopyOrigin(o) == Some(sk)
    ensures ks.OwnsCopy(o, sk, "") <==> ks.CopyOrigin(o) == Some(sk)
  {
    if k :| k in ks.Each() && MatchesStamp(k, o.labels, sk) {
      assert Managed(k, o.labels);
      assert ks.KeysFor(o) == Some(k);
    }
    if ks.CopyOrigin(o) == Some(sk) {
      var k := ks.KeysFor(o).value;
      assert MatchesStamp(k, o.labels, sk);
    }
  }
}
