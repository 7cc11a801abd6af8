/** The migration's completion signal (internal/controller/domain_counter.go). */
module DomainCounting {
  import opened Objects
  import opened Keys
  import opened KeySets

  function Counted(d: Keys, s: Store): set<Key> {
    set k | k in s && Managed(d, s[k].labels)
  }

  /** The honoured domains, each once. */
  function Domains(ks: KeySet): set<Keys> {
    set d | d in ks.Each()
  }

  function Reading(gauge: map<string, nat>, name: string): Option<nat> {
    if name in gauge then Some(gauge[name]) else None
  }

  /** Of the first n lists, the last under its domain. */
  ghost predicate Latest(each: seq<Keys>, n: nat, i: int)
    requires n <= |each|
  {
    0 <= i < n && forall j :: i < j < n ==> each[j] != each[i]
  }

  /** The last of the first n lists under a domain is the one that stays published. */
  ghost predicate Counting(each: seq<Keys>, seen: seq<Store>, n: nat, gauge: map<string, nat>)
    requires n <= |each| == |seen|
  {
    forall i :: Latest(each, n, i) ==> Reading(gauge, each[i].domain) == Some(|Counted(each[i], seen[i])|)
  }

  /** What is published under a domain is the count of one of its lists, or what was there. */
  ghost predicate Published(each: seq<Keys>, seen: seq<Store>, gauge0: map<string, nat>, gauge: map<string, nat>) {
    forall d :: d in each ==>
      || Reading(gauge, d.domain) == Reading(gauge0, d.domain)
      || exists i :: 0 <= i < |each| && i < |seen| && each[i] == d && Reading(gauge, d.domain) == Some(|Counted(d, seen[i])|)
  }

  ghost predicate NothingElse(each: seq<Keys>, gauge0: map<string, nat>, gauge: map<string, nat>) {
    forall name :: name in gauge ==> name in gauge0 || exists d :: d in each && d.domain == name
  }

  /** count: one list per domain; a list that fails leaves that domain's gauge as it was.
      seen: what each list was answered from, for the store moves on between them. */
  method Count(ks: KeySet, seen: seq<Store>, gauge0: map<string, nat>) returns (gauge: map<string, nat>, ok: bool)
    requires ks.Sound() && |seen| == |ks.Each()|
    ensures ok ==> Counting(ks.Each(), seen, |seen|, gauge)
    ensures Published(ks.Each(), seen, gauge0, gauge) && NothingElse(ks.Each(), gauge0, gauge)
    ensures ok && gauge0 == map[] && (forall i :: 0 <= i < |seen| ==> seen[i] == seen[0]) ==>
              Publishes(gauge, Domains(ks), seen[0])
  {
    hide Counting;
    hide Published;
    hide NothingElse;
    hide Publishes;
    gauge, ok := gauge0, true;
    var each := ks.Each();
    CountStarts(each, seen, gauge0);
    for i := 0 to |each|
      invariant ok ==> Counting(each, seen, i, gauge)
      invariant Published(each, seen, gauge0, gauge) && NothingElse(each, gauge0, gauge)
    {
      var err: bool := *;
      if err {
        ok := false;
      } else {
        CountStep(ks, seen, i, gauge0, gauge);
        gauge := gauge[each[i].domain := |Counted(each[i], seen[i])|];
      }
    }
    if ok && gauge0 == map[] && forall i :: 0 <= i < |seen| ==> seen[i] == seen[0] {
      StoodStill(ks, seen, gauge);
    }
  }

  lemma CountStarts(each: seq<Keys>, seen: seq<Store>, gauge0: map<string, nat>)
    requires |seen| == |each|
    ensures Counting(each, seen, 0, gauge0) && Published(each, seen, gauge0, gauge0) && NothingElse(each, gauge0, gauge0)
  {
  }

  lemma CountStep(ks: KeySet, seen: seq<Store>, n: nat, gauge0: map<string, nat>, gauge: map<string, nat>)
    requires ks.Sound() && n < |seen| == |ks.Each()|
    ensures var each := ks.Each();
            var next := gauge[each[n].domain := |Counted(each[n], seen[n])|];
            && (Counting(each, seen, n, gauge) ==> Counting(each, seen, n + 1, next))
            && (Published(each, seen, gauge0, gauge) ==> Published(each, seen, gauge0, next))
            && (NothingElse(each, gauge0, gauge) ==> NothingElse(each, gauge0, next))
  {
    hide Counted;
    SameDomainSameKeys(ks);
    hide KeySet.Sound;
    var each := ks.Each();
    hide KeySet.Each;
    var next := gauge[each[n].domain := |Counted(each[n], seen[n])|];
    assert forall d :: d in each && d.domain == each[n].domain ==> d == each[n];
    if Counting(each, seen, n, gauge) {
      forall i | Latest(each, n + 1, i) ensures Reading(next, each[i].domain) == Some(|Counted(each[i], seen[i])|) {
        if i < n {
          assert each[i] in each && Latest(each, n, i);
        }
      }
    }
  }

  /** Against a store that stands still, each domain is published with its count. */
  lemma StoodStill(ks: KeySet, seen: seq<Store>, gauge: map<string, nat>)
    requires ks.Sound() && |seen| == |ks.Each()| && forall i :: 0 <= i < |seen| ==> seen[i] == seen[0]
    requires Counting(ks.Each(), seen, |seen|, gauge) && NothingElse(ks.Each(), map[], gauge)
    ensures Publishes(gauge, Domains(ks), seen[0])
  {
    hide Counted;
    SameDomainSameKeys(ks);
    hide KeySet.Sound;
    forall d | d in ks.Each() ensures Reading(gauge, d.domain) == Some(|Counted(d, seen[0])|) {
      HasLatest(ks.Each(), d, |seen|);
    }
  }

  lemma {:induction false} HasLatest(each: seq<Keys>, d: Keys, from: nat)
    requires from <= |each| && d in each && d !in each[from..]
    ensures exists i :: Latest(each, |each|, i) && each[i] == d
  {
    if each[from - 1] == d {
      assert Latest(each, |each|, from - 1) by {
        forall j | from - 1 < j < |each| ensures each[j] != d {
          assert each[from..][j - from] != d;
        }
      }
    } else {
      assert each[from - 1..] == [each[from - 1]] + each[from..];
      HasLatest(each, d, from - 1);
    }
  }

  lemma SameDomainSameKeys(ks: KeySet)
    requires ks.Sound()
    ensures forall a, b :: a in ks.Each() && b in ks.Each() && a.domain == b.domain ==> a == b
  {
  }

  // ------------------------------------------------------------ what it adds up to

  ghost function SumOver(gauge: map<string, nat>): nat
    decreases |gauge.Keys|
  {
    if gauge == map[] then 0
    else
      var name :| name in gauge;
      gauge[name] + SumOver(gauge - {name})
  }

  /** The sum can be taken one series at a time, in any order. */
  lemma {:induction false} SumStep(gauge: map<string, nat>, name: string)
    requires name in gauge
    ensures SumOver(gauge) == gauge[name] + SumOver(gauge - {name})
    decreases |gauge.Keys|
  {
    var first :| first in gauge && SumOver(gauge) == gauge[first] + SumOver(gauge - {first});
    if first != name {
      SumStep(gauge - {first}, name);
      SumStep(gauge - {name}, first);
      assert gauge - {first} - {name} == gauge - {name} - {first};
    }
  }

  lemma SetSum<T>(a: set<T>, b: set<T>)
    ensures |a| + |b| == |a + b| + |a * b|
  {
    assert a + b == a + (b - a) && b == (b - a) + (a * b);
  }

  /** The objects counted under some domain of the set. */
  function CountedAny(ds: set<Keys>, s: Store): set<Key> {
    set k | k in s && exists d :: d in ds && Managed(d, s[k].labels)
  }

  /** No object is counted under two domains. */
  ghost predicate CountedOnce(ds: set<Keys>, s: Store) {
    forall k, a, b :: k in s && a in ds && b in ds && Managed(a, s[k].labels) && Managed(b, s[k].labels) ==> a == b
  }

  lemma CountedWith(ds: set<Keys>, d: Keys, s: Store)
    requires d !in ds
    ensures CountedAny(ds + {d}, s) == Counted(d, s) + CountedAny(ds, s)
    ensures CountedOnce(ds + {d}, s) <==> CountedOnce(ds, s) && Counted(d, s) * CountedAny(ds, s) == {}
  {
    if CountedOnce(ds + {d}, s) {
      forall k, a | k in Counted(d, s) && a in ds ensures !Managed(a, s[k].labels) {
        assert a in ds + {d} && d in ds + {d} && Managed(d, s[k].labels);
      }
    }
    if CountedOnce(ds, s) && Counted(d, s) * CountedAny(ds, s) == {} {
      forall k, a, b | k in s && a in ds + {d} && b in ds + {d} && Managed(a, s[k].labels) && Managed(b, s[k].labels)
        ensures a == b
      {
        assert a == d ==> k in Counted(d, s);
        assert b == d ==> k in Counted(d, s);
        assert a in ds ==> k in CountedAny(ds, s);
        assert b in ds ==> k in CountedAny(ds, s);
        assert k !in Counted(d, s) * CountedAny(ds, s);
      }
    }
  }

  /** The gauge holds the count of each of these domains and nothing else. */
  ghost predicate Publishes(gauge: map<string, nat>, ds: set<Keys>, s: Store) {
    && (forall a, b :: a in ds && b in ds && a.domain == b.domain ==> a == b)
    && (forall d :: d in ds ==> d.domain in gauge && gauge[d.domain] == |Counted(d, s)|)
    && (forall name :: name in gauge ==> exists d :: d in ds && d.domain == name)
  }

  lemma PublishesFewer(gauge: map<string, nat>, ds: set<Keys>, d: Keys, s: Store)
    requires Publishes(gauge, ds + {d}, s) && d !in ds
    ensures Publishes(gauge - {d.domain}, ds, s)
  {
    forall name | name in gauge - {d.domain} ensures exists e :: e in ds && e.domain == name {
      var e :| e in ds + {d} && e.domain == name;
      assert e in ds;
    }
  }

  lemma {:induction false} SumIff(gauge: map<string, nat>, ds: set<Keys>, s: Store)
    requires Publishes(gauge, ds, s)
    ensures SumOver(gauge) >= |CountedAny(ds, s)|
    ensures SumOver(gauge) == |CountedAny(ds, s)| <==> CountedOnce(ds, s)
  {
    if ds == {} {
      assert gauge == map[] by {
        forall name ensures name !in gauge {}
      }
      assert CountedAny(ds, s) == {};
    } else {
      var d :| d in ds;
      var rest := ds - {d};
      assert rest + {d} == ds;
      PublishesFewer(gauge, rest, d, s);
      SumIff(gauge - {d.domain}, rest, s);
      SumStep(gauge, d.domain);
      CountedWith(rest, d, s);
      SetSum(Counted(d, s), CountedAny(rest, s));
    }
  }

  /** The published counts sum to the number of managed copies exactly when no object carries
      two domains' managed-by mark, also when a domain is configured twice. */
  lemma CountsSumIff(ks: KeySet, s: Store, gauge: map<string, nat>)
    requires Publishes(gauge, Domains(ks), s)
    ensures SumOver(gauge) == |set k | k in s && ks.IsManagedCopy(s[k])|
            <==> forall k :: k in s ==> ks.SingleStamp(s[k].labels)
  {
    SumIff(gauge, Domains(ks), s);
    CountedAnyIsManaged(ks, s);
    CountedOnceIsSingle(ks, s);
  }

  lemma CountedAnyIsManaged(ks: KeySet, s: Store)
    ensures CountedAny(Domains(ks), s) == set k | k in s && ks.IsManagedCopy(s[k])
  {
    forall k | k in s ensures ks.IsManagedCopy(s[k]) <==> exists d :: d in Domains(ks) && Managed(d, s[k].labels) {
    }
  }

  lemma CountedOnceIsSingle(ks: KeySet, s: Store)
    ensures CountedOnce(Domains(ks), s) <==> forall k :: k in s ==> ks.SingleStamp(s[k].labels)
  {
    assert forall d :: d in Domains(ks) <==> d in ks.Each();
    if CountedOnce(Domains(ks), s) {
      forall k | k in s ensures ks.SingleStamp(s[k].labels) {
      }
    }
    if forall k :: k in s ==> ks.SingleStamp(s[k].labels) {
      forall k, a, b | k in s && a in Domains(ks) && b in Domains(ks) && Managed(a, s[k].labels) && Managed(b, s[k].labels)
        ensures a == b
      {
        assert ks.SingleStamp(s[k].labels);
      }
    }
  }
}
