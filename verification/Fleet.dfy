/** The API servers the controller talks to, one per cluster, as one mutable object. Any
    call may fail, and a write that fails may have landed all the same; faults records on
    which cluster a call failed, touched which keys were written to. */
module Api {
  import opened Objects
  import opened Keys
  import opened KeySets
  import opened Reconciling

  datatype WriteResult = Written | AlreadyExists | NotFound | Fault

  datatype Item = Item(key: Key, obj: Obj)

  /** A terminating object is held by some finalizer. */
  ghost predicate Held(s: Store) {
    forall k :: k in s ==> Live(s[k]).Some?
  }

  /** A cached List may report a stored object, or one already removed. */
  predicate Reports(live: Store, lag: Store, i: Item) {
    At(live, i.key) == Some(i.obj) || (i.key !in live && At(lag, i.key) == Some(i.obj))
  }

  function Holds(w: World, c: Cluster, k: Key): Option<Obj> {
    At(StoreOf(w, c), k)
  }

  /** No cluster but c differs. */
  ghost predicate SameBut(w0: World, w1: World, c: Cluster) {
    forall d :: d != c ==> StoreOf(w1, d) == StoreOf(w0, d)
  }

  /** w1 is w0 but for key k of cluster c, which holds now. */
  ghost predicate OnlyAt(w0: World, w1: World, c: Cluster, k: Key, now: Option<Obj>) {
    && SameBut(w0, w1, c)
    && (forall j :: j != k ==> At(StoreOf(w1, c), j) == At(StoreOf(w0, c), j))
    && Holds(w1, c, k) == now
  }

  /** A write that would turn had into sent, and was answered by r, left now. */
  ghost predicate Answered(r: WriteResult, had: Option<Obj>, sent: Option<Obj>, now: Option<Obj>) {
    if r == Written then now == sent else now == had || (r == Fault && now == sent)
  }

  /** Everything that can be said about the fleet at one moment. */
  datatype Snap = Snap(stores: World, lag: World, unseen: set<(Cluster, Key)>, faults: multiset<Cluster>, touched: set<(Cluster, Key)>)

  /** Between a and b only cluster c was called. */
  ghost predicate Confined(a: Snap, b: Snap, c: Cluster) {
    && SameBut(a.stores, b.stores, c) && SameBut(a.lag, b.lag, c)
    && (forall d :: d != c ==> b.faults[d] == a.faults[d])
    && b.faults[c] >= a.faults[c]
    && a.touched <= b.touched
    && (forall d, k :: d != c && (d, k) in b.touched ==> (d, k) in a.touched)
    && (forall d, k :: d != c ==> ((d, k) in b.unseen <==> (d, k) in a.unseen))
  }

  lemma ConfinedHere(a: Snap, c: Cluster)
    ensures Confined(a, a, c)
  {
  }

  lemma ConfinedJoins(a: Snap, b: Snap, z: Snap, c: Cluster)
    requires Confined(a, b, c) && Confined(b, z, c)
    ensures Confined(a, z, c)
  {
  }

  class Fleet {
    var stores: World
    var namespaces: Namespaces
    /** Objects already removed that a cached List may still report. */
    var lag: World
    /** Where a cached List may still miss what is stored. */
    var unseen: set<(Cluster, Key)>
    ghost var faults: multiset<Cluster>
    ghost var touched: set<(Cluster, Key)>

    ghost predicate Valid()
      reads this`stores
    {
      forall c :: Held(StoreOf(stores, c))
    }

    ghost function Now(): Snap
      reads this
    {
      Snap(stores, lag, unseen, faults, touched)
    }

    method Fails() returns (fail: bool) {
      fail := *;
    }

    method Get(c: Cluster, k: Key) returns (err: bool, got: Option<Obj>)
      modifies this`faults
      ensures faults == old(faults) + (if err then multiset{c} else multiset{})
      ensures Confined(old(Now()), Now(), c)
      ensures !err ==> got == At(StoreOf(stores, c), k)
    {
      err := Fails();
      got := At(StoreOf(stores, c), k);
      if err {
        faults := faults + multiset{c};
      }
    }

    method ListNamespaces(c: Cluster) returns (err: bool, got: Namespaces)
      modifies this`faults
      ensures faults == old(faults) + (if err then multiset{c} else multiset{})
      ensures Confined(old(Now()), Now(), c)
      ensures !err ==> got == namespaces
    {
      err := Fails();
      got := namespaces;
      if err {
        faults := faults + multiset{c};
      }
    }

    method Create(c: Cluster, k: Key, o: Obj) returns (r: WriteResult)
      requires Valid() && Live(o).Some?
      modifies this`stores, this`lag, this`unseen, this`faults, this`touched
      ensures Valid() && lag == old(lag)
      ensures faults == old(faults) + (if r == Fault then multiset{c} else multiset{})
      ensures Confined(old(Now()), Now(), c)
      ensures touched == old(touched) + {(c, k)} && unseen == old(unseen) + {(c, k)}
      ensures r != NotFound && (r == AlreadyExists ==> Holds(old(stores), c, k).Some?)
      ensures r == Written ==> Holds(old(stores), c, k) == None
      ensures OnlyAt(old(stores), stores, c, k, Holds(stores, c, k))
      ensures var had := Holds(old(stores), c, k);
              Answered(r, had, if had.Some? then had else Some(o), Holds(stores, c, k))
    {
      touched, unseen := touched + {(c, k)}, unseen + {(c, k)};
      var fail := Fails();
      var lost := Fails();
      if fail {
        faults := faults + multiset{c};
        if lost {
          return Fault;
        }
      }
      if k in StoreOf(stores, c) {
        return if fail then Fault else AlreadyExists;
      }
      Put(c, k, o);
      return if fail then Fault else Written;
    }

    /** Update: a stale version is one of the reasons it may fail. */
    method Update(c: Cluster, k: Key, o: Obj) returns (r: WriteResult)
      requires Valid()
      modifies this`stores, this`lag, this`unseen, this`faults, this`touched
      ensures Valid() && (Live(o).Some? ==> lag == old(lag))
      ensures faults == old(faults) + (if r == Fault then multiset{c} else multiset{})
      ensures Confined(old(Now()), Now(), c)
      ensures touched == old(touched) + {(c, k)} && unseen == old(unseen) + {(c, k)}
      ensures r != AlreadyExists && (r == NotFound ==> Holds(old(stores), c, k) == None)
      ensures r == Written ==> Holds(old(stores), c, k).Some?
      ensures OnlyAt(old(stores), stores, c, k, Holds(stores, c, k))
      ensures var had := Holds(old(stores), c, k);
              Answered(r, had, if had.Some? then Live(o) else None, Holds(stores, c, k))
    {
      touched, unseen := touched + {(c, k)}, unseen + {(c, k)};
      var fail := Fails();
      var lost := Fails();
      if fail {
        faults := faults + multiset{c};
        if lost {
          return Fault;
        }
      }
      if k !in StoreOf(stores, c) {
        return if fail then Fault else NotFound;
      }
      Put(c, k, o);
      return if fail then Fault else Written;
    }

    /** Store o, or drop the key if nothing holds o any more. */
    method Put(c: Cluster, k: Key, o: Obj)
      requires Valid()
      modifies this`stores, this`lag
      ensures Valid()
      ensures OnlyAt(old(stores), stores, c, k, Live(o))
      ensures OnlyAt(old(lag), lag, c, k, if Live(o).Some? then Holds(old(lag), c, k) else Some(o))
      ensures Live(o).Some? ==> lag == old(lag)
    {
      ghost var before := stores;
      if Live(o).Some? {
        stores := stores[c := StoreOf(stores, c)[k := o]];
      } else {
        stores := stores[c := StoreOf(stores, c) - {k}];
        lag := lag[c := StoreOf(lag, c)[k := o]];
      }
      forall d ensures Held(StoreOf(stores, d)) {
        assert Held(StoreOf(before, d));
      }
    }

    /** Delete takes no version. */
    method Delete(c: Cluster, k: Key) returns (r: WriteResult)
      requires Valid()
      modifies this`stores, this`lag, this`faults, this`touched
      ensures Valid()
      ensures faults == old(faults) + (if r == Fault then multiset{c} else multiset{})
      ensures Confined(old(Now()), Now(), c)
      ensures touched == old(touched) + {(c, k)}
      ensures r != AlreadyExists && (r == NotFound ==> Holds(old(stores), c, k) == None)
      ensures r == Written ==> Holds(old(stores), c, k).Some?
      ensures OnlyAt(old(stores), stores, c, k, Holds(stores, c, k))
      ensures var had := Holds(old(stores), c, k);
              Answered(r, had, if had.Some? then AfterDelete(had.value) else None, Holds(stores, c, k))
      ensures OnlyAt(old(lag), lag, c, k, Holds(lag, c, k))
      ensures Holds(stores, c, k) == Holds(old(stores), c, k) ==> lag == old(lag)
    {
      touched := touched + {(c, k)};
      var fail := Fails();
      var lost := Fails();
      if fail {
        faults := faults + multiset{c};
        if lost {
          return Fault;
        }
      }
      if k !in StoreOf(stores, c) {
        return if fail then Fault else NotFound;
      }
      Put(c, k, StoreOf(stores, c)[k].(deleting := true));
      return if fail then Fault else Written;
    }

    /** List with one domain's label matcher, from a cache: every stored match it has seen, and
        possibly removed objects it has not yet dropped, in any order. */
    method List(c: Cluster, d: Keys, sk: Key) returns (err: bool, items: seq<Item>)
      modifies this`faults
      ensures faults == old(faults) + (if err then multiset{c} else multiset{})
      ensures Confined(old(Now()), Now(), c)
      ensures !err ==> forall k :: k in StoreOf(stores, c) && MatchesStamp(d, StoreOf(stores, c)[k].labels, sk) ==>
                         (c, k) in unseen || Item(k, StoreOf(stores, c)[k]) in items
      ensures !err ==> forall i :: i in items ==>
                MatchesStamp(d, i.obj.labels, sk) && Reports(StoreOf(stores, c), StoreOf(lag, c), i)
    {
      items := [];
      err := Fails();
      if err {
        faults := faults + multiset{c};
        return;
      }
      var live, gone := StoreOf(stores, c), StoreOf(lag, c);
      var rest := live.Keys + gone.Keys;
      while rest != {}
        invariant faults == old(faults)
        invariant forall k :: k in live && MatchesStamp(d, live[k].labels, sk) ==>
                    k in rest || (c, k) in unseen || Item(k, live[k]) in items
        invariant forall i :: i in items ==>
                    MatchesStamp(d, i.obj.labels, sk) && Reports(live, gone, i)
      {
        var k :| k in rest;
        rest := rest - {k};
        var stale := Fails();
        if k in live {
          if !(stale && (c, k) in unseen) && MatchesStamp(d, live[k].labels, sk) {
            items := items + [Item(k, live[k])];
          }
        } else if stale && k in gone && MatchesStamp(d, gone[k].labels, sk) {
          items := items + [Item(k, gone[k])];
        }
      }
    }
  }
}
