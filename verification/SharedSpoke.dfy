/** Several hubs writing into one spoke (internal/controller/cross_cluster.go,
    internal/controller/replikate.go), each through upsertCopy and deleteCopies. */
module SharedSpoke {
  import opened Objects
  import opened KeySets
  import opened Copies
  import opened Reconciling
  import Api
  import Calls

  /** One call by the hub known as uid, on behalf of its source sk. */
  datatype Op =
    | Upsert(uid: string, sk: Key, src: Obj, ns: string)
    | Prune(uid: string, sk: Key, keep: set<string>)

  /** Any call may fail: an upsert leaves its key as it was or as placed, a prune deletes
      some of what it would delete. */
  ghost predicate Acts(ks: KeySet, op: Op, s: Store, t: Store) {
    forall k: Key :: At(t, k) == At(s, k) || At(t, k) == ActsAt(ks, op, k, At(s, k))
  }

  function ActsAt(ks: KeySet, op: Op, k: Key, had: Option<Obj>): Option<Obj> {
    match op
    case Upsert(uid, sk, src, ns) => if k == Key(ns, sk.name) then Placed(ks, sk, src, had, uid) else had
    case Prune(uid, sk, keep) => SweptAt(ks, sk, keep, uid, k, had)
  }

  /** Hubs know who they are, name their sources, and keep stamps off them. */
  ghost predicate Proper(ks: KeySet, op: Op) {
    op.uid != "" && op.sk.ns != "" && op.sk.name != "" && (op.Upsert? ==> ks.Clean(op.src.labels))
  }

  ghost predicate SingleStamps(ks: KeySet, s: Store) {
    forall k :: k in s ==> ks.SingleStamp(s[k].labels)
  }

  /** The copy at k was written by hub uid for its source sk. */
  predicate StampedBy(ks: KeySet, s: Store, k: Key, uid: string, sk: Key) {
    k in s && ks.OriginCluster(s[k]) == uid && ks.CopyOrigin(s[k]) == Some(sk)
  }

  lemma ActsKeepsSingleStamps(ks: KeySet, op: Op, s: Store, t: Store)
    requires ks.Sound() && Proper(ks, op) && SingleStamps(ks, s) && Acts(ks, op, s, t)
    ensures SingleStamps(ks, t)
  {
    forall k | k in t ensures ks.SingleStamp(t[k].labels) {
      assert At(t, k) == At(s, k) || At(t, k) == ActsAt(ks, op, k, At(s, k));
      if op.Upsert? {
        PlacedMeaning(ks, op.sk, op.src, At(s, k), op.uid);
        CleanGivesSingleStamp(ks, op.sk, op.src, op.uid);
      }
    }
  }

  /** The stamp decides: deleteCopies takes a copy of hub h for source sk0 when it acts for
      the same source, and as the same hub or as one that does not know who it is. */
  lemma DoomedIff(ks: KeySet, o: Obj, h: string, sk0: Key, uid: string, sk: Key)
    requires ks.SingleStamp(o.labels) && h != "" && sk.ns != "" && sk.name != ""
    requires ks.OriginCluster(o) == h && ks.CopyOrigin(o) == Some(sk0)
    ensures Doomed(ks, sk, o, uid) <==> sk == sk0 && (uid == h || uid == "")
  {
    OwnerReadingsAgree(ks, o, sk);
  }

  /** And so does upsertCopy. */
  lemma UntouchableIff(ks: KeySet, o: Obj, h: string, sk0: Key, uid: string, sk: Key)
    requires h != "" && ks.OriginCluster(o) == h && ks.CopyOrigin(o) == Some(sk0)
    requires sk.ns != "" && sk.name != ""
    ensures Untouchable(ks, sk, o, uid) <==> !(sk == sk0 && (uid == h || uid == ""))
  {
  }

  /** A call changes a copy of hub h for source sk0 only if it is by h, for sk0. */
  lemma ActsOnlyOnOwn(ks: KeySet, op: Op, s: Store, t: Store, k: Key, h: string, sk0: Key)
    requires ks.Sound() && Proper(ks, op) && SingleStamps(ks, s) && Acts(ks, op, s, t)
    requires h != "" && StampedBy(ks, s, k, h, sk0)
    requires op.uid != h || op.sk != sk0
    ensures At(t, k) == At(s, k)
  {
    assert At(t, k) == At(s, k) || At(t, k) == ActsAt(ks, op, k, At(s, k));
    if op.Upsert? {
      UntouchableIff(ks, s[k], h, sk0, op.uid, op.sk);
      PlacedMeaning(ks, op.sk, op.src, At(s, k), op.uid);
    } else {
      DoomedIff(ks, s[k], h, sk0, op.uid, op.sk);
    }
  }

  ghost predicate IsRun(ks: KeySet, ss: seq<Store>, ops: seq<Op>) {
    && |ss| == |ops| + 1
    && SingleStamps(ks, ss[0])
    && forall i {:trigger ops[i]} :: 0 <= i < |ops| ==> Proper(ks, ops[i]) && Acts(ks, ops[i], ss[i], ss[i + 1])
  }

  lemma {:induction false} RunKeepsSingleStamps(ks: KeySet, ss: seq<Store>, ops: seq<Op>, i: nat)
    requires ks.Sound() && IsRun(ks, ss, ops) && i < |ss|
    ensures SingleStamps(ks, ss[i])
  {
    if i > 0 {
      RunKeepsSingleStamps(ks, ss, ops, i - 1);
      ActsKeepsSingleStamps(ks, ops[i - 1], ss[i - 1], ss[i]);
    }
  }

  lemma RunLength(ks: KeySet, ss: seq<Store>, ops: seq<Op>)
    requires IsRun(ks, ss, ops)
    ensures |ss| == |ops| + 1
  {
  }

  lemma SameStamp(ks: KeySet, s: Store, t: Store, k: Key, h: string, sk0: Key)
    requires StampedBy(ks, s, k, h, sk0) && At(t, k) == At(s, k)
    ensures StampedBy(ks, t, k, h, sk0)
  {
  }

  lemma RunStep(ks: KeySet, ss: seq<Store>, ops: seq<Op>, i: nat, k: Key, h: string, sk0: Key)
    requires ks.Sound() && IsRun(ks, ss, ops) && i + 1 < |ss|
    requires h != "" && StampedBy(ks, ss[i], k, h, sk0)
    requires ops[i].uid != h || ops[i].sk != sk0
    ensures At(ss[i + 1], k) == At(ss[i], k)
  {
    RunKeepsSingleStamps(ks, ss, ops, i);
    ActsOnlyOnOwn(ks, ops[i], ss[i], ss[i + 1], k, h, sk0);
  }

  /** Hubs do not touch each other's copies. Over any run of calls by any hubs for any
      sources, a copy stamped by hub h for source sk0 stays exactly as it is for as long as h
      makes no call for sk0. */
  lemma {:induction false} OnlyTheOwnerActs(ks: KeySet, ss: seq<Store>, ops: seq<Op>, i: nat, j: nat,
                                            k: Key, h: string, sk0: Key)
    requires ks.Sound() && IsRun(ks, ss, ops) && i <= j < |ss|
    requires h != "" && StampedBy(ks, ss[i], k, h, sk0)
    requires forall n :: i <= n < j ==> ops[n].uid != h || ops[n].sk != sk0
    ensures At(ss[j], k) == At(ss[i], k)
  {
    hide IsRun;
    hide StampedBy;
    if i < j {
      RunLength(ks, ss, ops);
      OnlyTheOwnerActs(ks, ss, ops, i, j - 1, k, h, sk0);
      SameStamp(ks, ss[i], ss[j - 1], k, h, sk0);
      RunStep(ks, ss, ops, j - 1, k, h, sk0);
    }
  }

  /** An unstamped copy goes to the first hub that writes it for the source it names. */
  lemma FirstHubClaims(ks: KeySet, sk: Key, src: Obj, o: Obj, uid: string)
    requires ks.Sound() && ks.Clean(src.labels) && uid != "" && sk.ns != "" && sk.name != ""
    requires ks.OriginCluster(o) == "" && ks.CopyOrigin(o) == Some(sk)
    ensures var now := Placed(ks, sk, src, Some(o), uid);
            now.Some? && ks.OriginCluster(now.value) == uid && ks.CopyOrigin(now.value) == Some(sk)
  {
    PlacedMeaning(ks, sk, src, Some(o), uid);
    WrittenCopyIsRecognised(ks, sk, src, Placed(ks, sk, src, Some(o), uid).value, uid);
  }

  /** Knowing its own identity is what it takes: a hub without one takes every other hub's
      copy of a source of the same name, and only such a hub does. */
  lemma NamelessHubTakesIff(ks: KeySet, o: Obj, h: string, sk: Key, src: Obj, uid: string)
    requires ks.Sound() && ks.Clean(src.labels) && ks.SingleStamp(o.labels)
    requires h != "" && uid != h && sk.ns != "" && sk.name != ""
    requires ks.OriginCluster(o) == h && ks.CopyOrigin(o) == Some(sk)
    ensures uid == "" <==> Doomed(ks, sk, o, uid)
    ensures uid == "" <==> Placed(ks, sk, src, Some(o), uid) != Some(o)
  {
    DoomedIff(ks, o, h, sk, uid, sk);
    UntouchableIff(ks, o, h, sk, uid, sk);
    PlacedMeaning(ks, sk, src, Some(o), uid);
    if uid == "" {
      var now := Placed(ks, sk, src, Some(o), uid).value;
      WrittenCopyIsRecognised(ks, sk, src, now, uid);
      CleanGivesSingleStamp(ks, sk, src, uid);
      assert ks.OriginCluster(now) == "";
    }
  }

  /** The two calls, as the methods that make them are specified, are such acts. */
  lemma CallsAct(ks: KeySet, sk: Key, src: Obj, ns: string, keep: set<string>, uid: string, c: string,
                 a: Api.Snap, b: Api.Snap, act: Calls.Action, n: nat, err: bool)
    ensures Calls.Upserted(ks, sk, src, ns, uid, c, a, b, act, err) ==>
              Acts(ks, Upsert(uid, sk, src, ns), StoreOf(a.stores, c), StoreOf(b.stores, c))
    ensures Calls.Pruned(ks, sk, keep, uid, c, a, b, n, err) ==>
              Acts(ks, Prune(uid, sk, keep), StoreOf(a.stores, c), StoreOf(b.stores, c))
  {
    hide Placed;
    hide SweptAt;
    hide Judge;
    if Calls.Pruned(ks, sk, keep, uid, c, a, b, n, err) {
      forall k: Key
        ensures At(StoreOf(b.stores, c), k) == At(StoreOf(a.stores, c), k)
          || At(StoreOf(b.stores, c), k) == ActsAt(ks, Prune(uid, sk, keep), k, At(StoreOf(a.stores, c), k))
      {
        assert Api.Holds(b.stores, c, k) == Api.Holds(a.stores, c, k)
          || Api.Holds(b.stores, c, k) == SweptAt(ks, sk, keep, uid, k, Api.Holds(a.stores, c, k));
      }
    }
  }
}
