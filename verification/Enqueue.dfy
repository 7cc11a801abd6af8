/** Which sources a watch event re-drives (internal/controller/syncer.go). */
module Enqueue {
  import opened Objects
  import opened KeySets
  import opened Reconciling
  import opened Api
  import TargetClusters
  import Outcomes

  /** The keys of the sources whose annotation names spoke id, in order. */
  function Requests(ks: KeySet, id: string, sources: seq<Item>): seq<Key> {
    if sources == [] then []
    else
      var last := sources[|sources| - 1];
      Requests(ks, id, sources[..|sources| - 1]) + if Names(ks, last.obj, id) then [last.key] else []
  }

  predicate Names(ks: KeySet, src: Obj, id: string) {
    id in TargetClusters.Parsed(TargetsText(ks, src))
  }

  /** What a lookup under SourceIndexField answers, in some order: the sources in the cache. */
  ghost predicate Indexed(ks: KeySet, cache: Store, items: seq<Item>) {
    && (forall i :: i in items ==> At(cache, i.key) == Some(i.obj) && ks.IsSource(i.obj))
    && (forall k :: k in cache && ks.IsSource(cache[k]) ==> Item(k, cache[k]) in items)
    && (forall a, b :: 0 <= a < b < |items| ==> items[a].key != items[b].key)
  }

  /** indexSource and the lookup by it, which may fail. */
  method ListSources(ks: KeySet, cache: Store) returns (listed: Option<seq<Item>>)
    ensures listed.Some? ==> Indexed(ks, cache, listed.value)
  {
    hide KeySet.IsSource;
    var items := [];
    var rest := cache.Keys;
    while rest != {}
      invariant rest <= cache.Keys
      invariant Indexed(ks, map k | k in cache && k !in rest :: cache[k], items)
    {
      ghost var done := map k | k in cache && k !in rest :: cache[k];
      var k :| k in rest;
      rest := rest - {k};
      assert (map j | j in cache && j !in rest :: cache[j]) == done[k := cache[k]];
      assert forall i :: i in items ==> i.key in done;
      if ks.IsSource(cache[k]) {
        items := items + [Item(k, cache[k])];
      }
    }
    assert (map k | k in cache && k !in rest :: cache[k]) == cache;
    var fail: bool := *;
    listed := if fail then None else Some(items);
  }

  /** mapCredentialToSources: a just-registered spoke re-drives the sources whose annotation
      names it, or none if the lookup fails. */
  method MapCredentialToSources(ks: KeySet, id: string, cache: Store) returns (reqs: seq<Key>, found: bool)
    ensures found ==> forall k :: k in reqs <==> k in cache && ks.IsSource(cache[k]) && Names(ks, cache[k], id)
    ensures found ==> forall a, b :: 0 <= a < b < |reqs| ==> reqs[a] != reqs[b]
    ensures !found ==> reqs == []
  {
    hide TargetsText;
    hide Indexed;
    hide Names;
    hide KeySet.IsSource;
    hide TargetClusters.Means;
    hide TargetClusters.Parsed;
    reqs := [];
    var listed := ListSources(ks, cache);
    found := listed.Some?;
    if !found {
      return;
    }
    var sources := listed.value;
    for n := 0 to |sources|
      invariant reqs == Requests(ks, id, sources[..n])
    {
      var o := sources[n];
      assert sources[..n + 1][..n] == sources[..n];
      var targets := TargetClusters.ParseTargetClusters(TargetsText(ks, o.obj));
      assert id in targets <==> Names(ks, o.obj, id) by { NamesMeans(ks, o.obj, id); }
      if id in targets {
        reqs := reqs + [o.key];
      }
    }
    assert sources[..|sources|] == sources;
    forall k ensures k in reqs <==> k in cache && ks.IsSource(cache[k]) && Names(ks, cache[k], id) {
      RequestsExactly(ks, id, cache, sources, k);
    }
    RequestedOnce(ks, id, cache, sources);
  }

  lemma NamesMeans(ks: KeySet, src: Obj, id: string)
    ensures Names(ks, src, id) <==> id in TargetClusters.Parsed(TargetsText(ks, src))
  {
  }

  lemma {:induction false} RequestsOf(ks: KeySet, id: string, sources: seq<Item>, k: Key)
    ensures k in Requests(ks, id, sources) <==> exists i :: i in sources && i.key == k && Names(ks, i.obj, id)
  {
    hide Names;
    if sources != [] {
      var front, last := sources[..|sources| - 1], sources[|sources| - 1];
      assert sources == front + [last];
      RequestsOf(ks, id, front, k);
      if i :| i in sources && i.key == k && Names(ks, i.obj, id) {
        assert i in front || i == last;
      }
    }
  }

  /** Whatever the order of the index, every source that names the spoke is requested, and
      nothing else. */
  lemma RequestsExactly(ks: KeySet, id: string, cache: Store, sources: seq<Item>, k: Key)
    requires Indexed(ks, cache, sources)
    ensures k in Requests(ks, id, sources) <==> k in cache && ks.IsSource(cache[k]) && Names(ks, cache[k], id)
  {
    hide Names;
    hide KeySet.IsSource;
    RequestsOf(ks, id, sources, k);
    if k in cache && ks.IsSource(cache[k]) {
      assert Item(k, cache[k]) in sources;
    }
  }

  ghost predicate NoKeyTwice(keys: seq<Key>) {
    forall a, b :: 0 <= a < b < |keys| ==> keys[a] != keys[b]
  }

  lemma {:induction false} DistinctRequests(ks: KeySet, id: string, sources: seq<Item>)
    requires forall a, b :: 0 <= a < b < |sources| ==> sources[a].key != sources[b].key
    ensures NoKeyTwice(Requests(ks, id, sources))
  {
    hide Names;
    if sources != [] {
      var front, last := sources[..|sources| - 1], sources[|sources| - 1];
      DistinctRequests(ks, id, front);
      RequestsOf(ks, id, front, last.key);
      assert last.key !in Requests(ks, id, front);
    }
  }

  lemma RequestedOnce(ks: KeySet, id: string, cache: Store, sources: seq<Item>)
    requires Indexed(ks, cache, sources)
    ensures NoKeyTwice(Requests(ks, id, sources))
  {
    hide Names;
    hide KeySet.IsSource;
    DistinctRequests(ks, id, sources);
  }

  /** A spoke is named exactly when some namespace on it is asked for. */
  lemma NamedMeansAsked(home: string, csv: string, id: string)
    ensures id in TargetClusters.Parsed(csv) <==> TargetClusters.Dests(home, csv, id) != {}
  {
    TargetClusters.ParsedMeans(csv);
    if id in TargetClusters.Parsed(csv) {
      var listed := TargetClusters.Parsed(csv)[id];
      assert TargetClusters.Listed(TargetClusters.Entries(csv), id)[0] in listed;
      assert TargetClusters.Resolve(home, listed)[0] in TargetClusters.Dests(home, csv, id);
    }
  }

  lemma NoAnnotationNamesNothing(ks: KeySet, src: Obj, id: string)
    requires ks.TargetClustersValue(src.annotations).None?
    ensures !Names(ks, src, id)
  {
    TargetClusters.ParsedMeans("");
    assert TargetClusters.Entries("") == [TargetClusters.ParseEntry("")];
    assert TargetClusters.Listed([TargetClusters.ParseEntry("")], id) != [] ==> id == "";
  }

  /** Enqueue agrees with effect: registering a spoke re-drives exactly the sources whose
      sync pass would write into some namespace there. */
  lemma EnqueueAgreesWithEffect(cfg: Config, nss: Namespaces, registered: map<string, Cluster>, sk: Key, src: Obj,
                                sel: Selector, id: string)
    requires Separate(cfg, Some(registered)) && id in registered
    ensures var scope := Scope(cfg, nss, Some(registered), sk, src, sel, registered[id]);
            Names(cfg.ks, src, id) <==> scope.Some? && scope.value.0 != {}
    ensures Names(cfg.ks, src, id) ==>
              Scope(cfg, nss, Some(registered), sk, src, sel, registered[id])
                == Some((TargetClusters.Dests(sk.ns, TargetsText(cfg.ks, src), id), cfg.hubUid))
  {
    hide DestsOn;
    hide TargetClusters.Parsed;
    hide TargetClusters.Dests;
    NamedMeansAsked(sk.ns, TargetsText(cfg.ks, src), id);
    if cfg.ks.TargetClustersValue(src.annotations).None? {
      NoAnnotationNamesNothing(cfg.ks, src, id);
    }
    Outcomes.DestsOnOne(cfg, registered, sk.ns, TargetsText(cfg.ks, src), id);
  }
}
