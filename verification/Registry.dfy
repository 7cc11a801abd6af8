/** The spoke registry and the credential reconciler that fills it
    (internal/controller/registry.go, internal/controller/cluster_controller.go). */
module Registry {
  import opened Objects
  import Text

  /** A registered spoke: the cluster its client reaches, and last-known reachability. */
  datatype Conn = Conn(client: Cluster, up: bool)

  class ClusterRegistry {
    var clusters: map<string, Conn>
    /** replikate_cluster_up: absent, 0 or 1 per cluster id. */
    var gauge: map<string, int>

    constructor ()
      ensures clusters == map[] && gauge == map[]
    {
      clusters, gauge := map[], map[];
    }

    function Clients(): map<string, Cluster>
      reads this`clusters
    {
      map id | id in clusters :: clusters[id].client
    }

    method ClientFor(id: string) returns (client: Option<Cluster>)
      ensures client == if id in clusters then Some(clusters[id].client) else None
    {
      client := if id in clusters then Some(clusters[id].client) else None;
    }

    /** Every registered id once, in order. */
    method IDs() returns (ids: seq<string>)
      ensures forall id :: id in ids <==> id in clusters
      ensures Text.Ascending(ids)
      ensures forall i, j :: 0 <= i < j < |ids| ==> ids[i] != ids[j]
    {
      ids := [];
      var rest := clusters.Keys;
      while rest != {}
        invariant rest <= clusters.Keys
        invariant forall id :: id in ids <==> id in clusters && id !in rest
        invariant Text.Ascending(ids)
      {
        var id :| id in rest;
        rest := rest - {id};
        var n := Text.Rank(ids, id);
        Text.InsertKeepsOrder(ids, id);
        assert ids == ids[..n] + ids[n..];
        ids := ids[..n] + [id] + ids[n..];
      }
      forall i, j | 0 <= i < j < |ids| ensures ids[i] != ids[j] {
        Text.LessIsStrict(ids[i]);
      }
    }

    method Store(id: string, client: Cluster)
      modifies this`clusters
      ensures clusters == old(clusters)[id := Conn(client, false)]
    {
      clusters := clusters[id := Conn(client, false)];
    }

    method SetUp(id: string, up: bool)
      modifies this
      ensures clusters == if id in old(clusters) then old(clusters)[id := old(clusters)[id].(up := up)] else old(clusters)
      ensures gauge == old(gauge)[id := if up then 1 else 0]
    {
      if id in clusters {
        clusters := clusters[id := clusters[id].(up := up)];
      }
      gauge := gauge[id := if up then 1 else 0];
    }

    method Remove(id: string)
      modifies this
      ensures clusters == old(clusters) - {id} && gauge == old(gauge) - {id}
    {
      clusters := clusters - {id};
      gauge := gauge - {id};
    }
  }

  // ------------------------------------------------------ credential reconciler

  /** What a reconcile of one credential Secret finds. */
  datatype Credential =
    | GetFails                                     // the Secret could not be read
    | Absent                                       // the Secret is gone
    | Malformed                                    // no client can be built from it
    | Unreachable                                  // the connectivity check fails
    | Reachable(cluster: Cluster, uid: Option<string>)   // uid None: identity unreadable

  datatype Result = Done | Requeue | Error

  datatype Event = Event(id: string, cred: Credential)

  /** The registry after one reconcile, as a value. */
  datatype View = View(clusters: map<string, Conn>, gauge: map<string, int>)

  predicate Vetted(hubUid: string, cred: Credential) {
    cred.Reachable? && (hubUid != "" ==> cred.uid.Some? && cred.uid.value != hubUid)
  }

  function Step(hubUid: string, v: View, e: Event): View {
    if Vetted(hubUid, e.cred) then
      View(v.clusters[e.id := Conn(e.cred.cluster, true)], v.gauge[e.id := 1])
    else if e.cred.GetFails? then v
    else if e.cred.Unreachable? then
      View(if e.id in v.clusters then v.clusters[e.id := v.clusters[e.id].(up := false)] else v.clusters,
           v.gauge[e.id := 0])
    else View(v.clusters - {e.id}, v.gauge - {e.id})
  }

  class ClusterCredentialReconciler {
    const registry: ClusterRegistry
    const hubUid: string

    constructor (registry: ClusterRegistry, hubUid: string)
      ensures this.registry == registry && this.hubUid == hubUid
    {
      this.registry, this.hubUid := registry, hubUid;
    }

    function Seen(): View
      reads registry
    {
      View(registry.clusters, registry.gauge)
    }

    method Reconcile(id: string, cred: Credential) returns (r: Result)
      modifies registry
      ensures Seen() == Step(hubUid, old(Seen()), Event(id, cred))
      ensures r == Error <==> cred.GetFails?
      ensures r == Requeue <==> cred.Unreachable? || (cred.Reachable? && (Vetted(hubUid, cred) || cred.uid.None?))
    {
      if cred.GetFails? {
        return Error;
      }
      if cred.Absent? {
        registry.Remove(id);
        return Done;
      }
      if cred.Malformed? {
        registry.Remove(id);
        return Done;
      }
      if cred.Unreachable? {
        registry.SetUp(id, false);
        return Requeue;
      }
      if hubUid != "" {
        if cred.uid.None? {
          registry.Remove(id);
          return Requeue;
        }
        if cred.uid.value == hubUid {
          registry.Remove(id);
          return Done;
        }
      }
      registry.Store(id, cred.cluster);
      registry.SetUp(id, true);
      return Requeue;
    }
  }

  // ------------------------------------------------------------------ all runs

  function Run(hubUid: string, v: View, es: seq<Event>): View {
    if es == [] then v else Step(hubUid, Run(hubUid, v, es[..|es| - 1]), es[|es| - 1])
  }

  const Empty := View(map[], map[])

  /** The last event that decides whether id is registered: one that vets it or removes it. */
  function LastDecisive(hubUid: string, es: seq<Event>, id: string): Option<Credential> {
    if es == [] then None
    else
      var e := es[|es| - 1];
      if e.id == id && !e.cred.GetFails? && !e.cred.Unreachable? then Some(e.cred)
      else LastDecisive(hubUid, es[..|es| - 1], id)
  }

  /** An independent reading of the registry: id is registered exactly when its last
      deciding credential was vetted, with that credential's cluster. */
  lemma {:induction false} RegistryIsLastVetted(hubUid: string, es: seq<Event>, id: string)
    ensures var last := LastDecisive(hubUid, es, id);
            var clusters := Run(hubUid, Empty, es).clusters;
            if last.Some? && Vetted(hubUid, last.value)
            then id in clusters && clusters[id].client == last.value.cluster
            else id !in clusters
  {
    if es != [] {
      RegistryIsLastVetted(hubUid, es[..|es| - 1], id);
    }
  }

  /** An identity read is true: a client that reaches the hub reports the hub's UID. */
  ghost predicate Honest(hub: Cluster, hubUid: string, es: seq<Event>) {
    forall e :: e in es && e.cred.Reachable? && e.cred.cluster == hub && e.cred.uid.Some? ==> e.cred.uid.value == hubUid
  }

  /** The hub is never a spoke, whatever credentials come and go, as long as its own
      identity is known. */
  lemma {:induction false} HubIsNeverASpoke(hub: Cluster, hubUid: string, es: seq<Event>, id: string)
    requires hubUid != "" && Honest(hub, hubUid, es)
    requires id in Run(hubUid, Empty, es).clusters
    ensures Run(hubUid, Empty, es).clusters[id].client != hub
  {
    RegistryIsLastVetted(hubUid, es, id);
    LastDecisiveOccurs(hubUid, es, id);
  }

  lemma {:induction false} LastDecisiveOccurs(hubUid: string, es: seq<Event>, id: string)
    requires LastDecisive(hubUid, es, id).Some?
    ensures Event(id, LastDecisive(hubUid, es, id).value) in es
  {
    var e := es[|es| - 1];
    if !(e.id == id && !e.cred.GetFails? && !e.cred.Unreachable?) {
      LastDecisiveOccurs(hubUid, es[..|es| - 1], id);
    }
  }

  /** Knowing the identity is what it takes: with an empty one, and only then, some
      honest history registers the hub as its own spoke. */
  lemma SelfSpokeIff(hub: Cluster, hubUid: string, realUid: string)
    requires hubUid == "" || hubUid == realUid
    requires realUid != ""
    ensures hubUid == "" <==>
            exists es, id :: Honest(hub, realUid, es) && id in Run(hubUid, Empty, es).clusters
                             && Run(hubUid, Empty, es).clusters[id].client == hub
  {
    if hubUid == "" {
      var e := Event("self", Reachable(hub, Some(realUid)));
      var es := [e];
      assert es[..0] == [];
      assert Run(hubUid, Empty, es) == Step(hubUid, Run(hubUid, Empty, []), e);
      assert Honest(hub, realUid, es);
      assert "self" in Run(hubUid, Empty, es).clusters;
    } else {
      forall es, id | Honest(hub, realUid, es) && id in Run(hubUid, Empty, es).clusters
        ensures Run(hubUid, Empty, es).clusters[id].client != hub
      {
        HubIsNeverASpoke(hub, hubUid, es, id);
      }
    }
  }

  /** At reconcile boundaries the gauge reads 1 exactly for the spokes registered and up. */
  lemma {:induction false} GaugeIsTrue(hubUid: string, es: seq<Event>, id: string)
    ensures var v := Run(hubUid, Empty, es);
            (id in v.gauge && v.gauge[id] == 1) <==> (id in v.clusters && v.clusters[id].up)
  {
    if es != [] {
      GaugeIsTrue(hubUid, es[..|es| - 1], id);
    }
  }

  /** Event j is the last word on id: later events for it could not read the credential. */
  ghost predicate LastWord(es: seq<Event>, id: string, j: int) {
    && 0 <= j < |es| && es[j].id == id && !es[j].cred.GetFails?
    && forall n :: j < n < |es| && es[n].id == id ==> es[n].cred.GetFails?
  }

  /** A credential that registers: it leads to a cluster, and if this hub knows who it is, to one
      that says who it is and is another. */
  ghost predicate Passes(hubUid: string, cred: Credential) {
    match cred
    case Reachable(_, uid) => hubUid == "" || (uid.Some? && uid.value != hubUid)
    case _ => false
  }

  /** What the last word on an id makes of it. */
  lemma {:induction false} AfterLastWord(hubUid: string, es: seq<Event>, id: string, j: int)
    requires LastWord(es, id, j)
    ensures var v, cred := Run(hubUid, Empty, es), es[j].cred;
            if Passes(hubUid, cred) then
              id in v.gauge && v.gauge[id] == 1 && id in v.clusters && v.clusters[id] == Conn(cred.cluster, true)
            else if cred.Unreachable? then id in v.gauge && v.gauge[id] == 0 && (id in v.clusters ==> !v.clusters[id].up)
            else id !in v.gauge && id !in v.clusters
  {
    if j < |es| - 1 {
      assert LastWord(es[..|es| - 1], id, j);
      AfterLastWord(hubUid, es[..|es| - 1], id, j);
    }
  }

  lemma {:induction false} NeverHeardOf(hubUid: string, es: seq<Event>, id: string)
    requires forall j :: 0 <= j < |es| && es[j].id == id ==> es[j].cred.GetFails?
    ensures id !in Run(hubUid, Empty, es).gauge && id !in Run(hubUid, Empty, es).clusters
  {
    if es != [] {
      NeverHeardOf(hubUid, es[..|es| - 1], id);
    }
  }

  lemma {:induction false} SomeLastWord(es: seq<Event>, id: string, j: int)
    requires 0 <= j < |es| && es[j].id == id && !es[j].cred.GetFails?
    ensures exists n :: LastWord(es, id, n)
    decreases |es| - j
  {
    if !LastWord(es, id, j) {
      var n :| j < n < |es| && es[n].id == id && !es[n].cred.GetFails?;
      SomeLastWord(es, id, n);
    }
  }

  /** Reachability over all runs: the gauge of an id reads 1 if and only if the last word on it
      registered it, 0 if and only if that said unreachable, and there is none otherwise. A
      registered id is up exactly in the first case. */
  lemma ReachabilityIsLastWord(hubUid: string, es: seq<Event>, id: string)
    ensures var v := Run(hubUid, Empty, es);
            && (id in v.gauge ==> v.gauge[id] in {0, 1})
            && (id in v.gauge && v.gauge[id] == 1 <==> exists j :: LastWord(es, id, j) && Passes(hubUid, es[j].cred))
            && (id in v.gauge && v.gauge[id] == 0 <==> exists j :: LastWord(es, id, j) && es[j].cred.Unreachable?)
            && (id in v.clusters && v.clusters[id].up <==> exists j :: LastWord(es, id, j) && Passes(hubUid, es[j].cred))
  {
    if forall j :: 0 <= j < |es| && es[j].id == id ==> es[j].cred.GetFails? {
      NeverHeardOf(hubUid, es, id);
    } else {
      var n :| 0 <= n < |es| && es[n].id == id && !es[n].cred.GetFails?;
      SomeLastWord(es, id, n);
      var j :| LastWord(es, id, j);
      AfterLastWord(hubUid, es, id, j);
      assert forall i :: LastWord(es, id, i) ==> i == j;
    }
  }
}
