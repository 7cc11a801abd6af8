/** A prefix migration seen over whole runs of the controller
    (docs/design/dual-annotation-domain.md): it only ever moves forward, never deletes a
    wanted copy, and is over once the queue is empty. */
module Rollout {
  import opened Objects
  import opened KeySets
  import opened Copies
  import opened Reconciling
  import opened Controller
  import opened Safety
  import opened Convergence
  import opened DomainCounting

  predicate LegacyAt(ks: KeySet, s: State, k: Key) {
    k in s.store && ks.LegacyDomainOf(s.store[k].obj).Some?
  }

  lemma LegacyMeansManaged(ks: KeySet, o: Obj)
    ensures ks.LegacyDomainOf(o).Some? <==> ks.IsManagedCopy(o) && !Managed(ks.primary, o.labels)
  {
    assert ks.Each()[0] == ks.primary && ks.Each()[1..] == ks.legacy;
  }

  /** No write, by a worker or a user, puts a legacy stamp where there was none. */
  lemma WriteAddsNoLegacy(cfg: Config, s: State, m: Move)
    requires Inv(cfg, s) && Enabled(cfg, s, m) && Written(cfg, s, m).Some?
    requires cfg.ks.LegacyDomainOf(Written(cfg, s, m).value.1).Some?
    ensures LegacyAt(cfg.ks, s, Written(cfg, s, m).value.0)
  {
    hide Inv;
    hide KeySet.LegacyDomainOf;
    if m.Write? {
      hide Written;
      CopyIsPrimary(cfg, s, m);
    } else if m.UserPut? {
      UserPutAddsNoLegacy(cfg.ks, s, m.k, m.obj);
    } else {
      hide Written;
      WriteKinds(cfg, s, m);
      SameLabelsSameLegacy(cfg.ks, s.store[Written(cfg, s, m).value.0].obj, Written(cfg, s, m).value.1);
    }
  }

  lemma SameLabelsSameLegacy(ks: KeySet, a: Obj, b: Obj)
    requires a.labels == b.labels
    ensures ks.LegacyDomainOf(a) == ks.LegacyDomainOf(b)
  {
  }

  lemma UserPutAddsNoLegacy(ks: KeySet, s: State, k: Key, o: Obj)
    requires UserMay(ks, s, k, o) && ks.LegacyDomainOf(o).Some?
    ensures LegacyAt(ks, s, k)
  {
    LegacyMeansManaged(ks, o);
    if k in s.store {
      LegacyMeansManaged(ks, s.store[k].obj);
      assert ks.primary in ks.Each();
      SameStampSameOwner(ks, s.store[k].obj, o);
    }
  }

  lemma CopyIsPrimary(cfg: Config, s: State, m: Move)
    requires Inv(cfg, s) && m.Write? && InPhase(cfg, s, m) && Written(cfg, s, m).Some?
    ensures cfg.ks.LegacyDomainOf(Written(cfg, s, m).value.1).None?
  {
    CopyWriteShape(cfg, s, m);
    CopyLabelsLookup(cfg.ks, m.sk, s.working[m.sk].obj, "");
  }

  lemma StepAddsNoLegacy(cfg: Config, s: State, m: Move, k: Key)
    requires Inv(cfg, s) && Enabled(cfg, s, m) && LegacyAt(cfg.ks, Apply(cfg, s, m), k)
    ensures LegacyAt(cfg.ks, s, k)
  {
    ApplyStore(cfg, s, m);
    hide Apply;
    EffectAddsNoLegacy(cfg, s, m, k);
  }

  lemma EffectAddsNoLegacy(cfg: Config, s: State, m: Move, k: Key)
    requires Inv(cfg, s) && Enabled(cfg, s, m) && LegacyAt(cfg.ks, Effect(cfg, s, m), k)
    ensures LegacyAt(cfg.ks, s, k)
  {
    hide Inv;
    hide Written;
    hide KeySet.LegacyDomainOf;
    if Written(cfg, s, m).Some? && Written(cfg, s, m).value.0 == k {
      WriteAddsNoLegacy(cfg, s, m);
    }
  }

  /** Migration only moves forward: over any run, with failures, restarts and users, a key
      that holds a legacy-stamped copy has held one all along. */
  lemma {:induction false} MigrationNeverGoesBack(cfg: Config, ss: seq<State>, ms: seq<Move>, i: nat, j: nat, k: Key)
    requires IsRun(cfg, ss, ms) && i <= j < |ss| && LegacyAt(cfg.ks, ss[j], k)
    ensures LegacyAt(cfg.ks, ss[i], k)
  {
    hide IsRun;
    hide LegacyAt;
    if i < j {
      RunStepAddsNoLegacy(cfg, ss, ms, j - 1, k);
      MigrationNeverGoesBack(cfg, ss, ms, i, j - 1, k);
    }
  }

  lemma RunStepAddsNoLegacy(cfg: Config, ss: seq<State>, ms: seq<Move>, i: nat, k: Key)
    requires IsRun(cfg, ss, ms) && i + 1 < |ss| && LegacyAt(cfg.ks, ss[i + 1], k)
    ensures LegacyAt(cfg.ks, ss[i], k)
  {
    RunKeepsInv(cfg, ss, ms, i);
    StepAddsNoLegacy(cfg, ss[i], ms[i], k);
  }

  // ------------------------------------------------------- never through absence

  /** The namespaces a replicating worker has decided to keep, once it has listed them. */
  predicate Keeps(p: Phase, ns: string) {
    match p
    case Placing(_, targets, _) => ns in targets
    case Writing(_, targets, _, _, _) => ns in targets
    case Sweeping(_, _, keep, _, _, _) => keep.Some? && ns in keep.value
    case _ => false
  }

  /** While a pass is under way its worker never takes away a copy in a namespace it
      targets: whatever it does, the key still holds a live copy of the same source. */
  lemma WorkerKeepsTargets(cfg: Config, s: State, m: Move, k: Key)
    requires Inv(cfg, s) && InPhaseOf(cfg, s, m) && m.sk in s.working
    requires Keeps(s.working[m.sk], k.ns) && LiveCopyAt(cfg.ks, s, k, m.sk)
    ensures LiveCopyAt(cfg.ks, Apply(cfg, s, m), k, m.sk)
  {
    ApplyStore(cfg, s, m);
    hide Apply;
    EffectKeepsTargets(cfg, s, m, k);
  }

  lemma EffectKeepsTargets(cfg: Config, s: State, m: Move, k: Key)
    requires Inv(cfg, s) && InPhaseOf(cfg, s, m) && m.sk in s.working
    requires Keeps(s.working[m.sk], k.ns) && LiveCopyAt(cfg.ks, s, k, m.sk)
    ensures LiveCopyAt(cfg.ks, Effect(cfg, s, m), k, m.sk)
  {
    hide Inv;
    hide Written;
    hide KeySet.CopyOrigin;
    if Written(cfg, s, m).Some? {
      KeepingWrites(cfg, s, m, k.ns);
      if k == Written(cfg, s, m).value.0 {
        PutIsCopy(cfg, s, m, k);
      }
    }
  }

  /** The only writes of a replicating worker: its copies, and deletes outside its targets. */
  lemma KeepingWrites(cfg: Config, s: State, m: Move, ns: string)
    requires InPhaseOf(cfg, s, m) && m.sk in s.working && Keeps(s.working[m.sk], ns) && Written(cfg, s, m).Some?
    ensures m.Write? || Written(cfg, s, m).value.0.ns != ns
  {
  }

  lemma PutIsCopy(cfg: Config, s: State, m: Move, k: Key)
    requires Inv(cfg, s) && m.Write? && InPhase(cfg, s, m) && Written(cfg, s, m).Some?
    requires LiveCopyAt(cfg.ks, s, k, m.sk) && Written(cfg, s, m).value.0 == k
    ensures LiveCopyAt(cfg.ks, Put(cfg.ks, s, k, Written(cfg, s, m).value.1), k, m.sk)
  {
    hide Inv;
    hide Written;
    CopyWriteIsGood(cfg, s, m);
    CopyWriteShape(cfg, s, m);
  }

  // --------------------------------------------------------------- completion

  /** Once the queue is empty the migration is over, over all runs: no live copy of a live
      source with a readable selector is stamped under a legacy domain. */
  lemma QuiescentMeansMigrated(cfg: Config, ss: seq<State>, ms: seq<Move>, i: nat, sk: Key, k: Key)
    requires IsListedRun(cfg, ss, ms) && i < |ss|
    requires AtRest(ss[i])
    requires sk in ss[i].store && cfg.ks.IsSource(ss[i].store[sk].obj) && !ss[i].store[sk].obj.deleting
    requires cfg.parse(SelectorText(cfg.ks, ss[i].store[sk].obj)).Some?
    requires LiveCopyAt(cfg.ks, ss[i], k, sk)
    ensures !LegacyAt(cfg.ks, ss[i], k)
  {
    QuiescentMeansNoStrays(cfg, ss, ms, i, sk);
    assert k == CopyKey(sk, k.ns);
    QuiescentMeansUpToDate(cfg, ss, ms, i, sk, k.ns);
    ListedGivesInv(cfg, ss, ms, i);
    hide IsListedRun;
    CopyLabelsLookup(cfg.ks, sk, ss[i].store[sk].obj, "");
  }

  /** What the API server holds, without versions. */
  function Stored(s: State): Store {
    map k | k in s.store :: s.store[k].obj
  }

  /** Over any run the published counts, taken at one moment, sum to the number of managed
      copies at that moment. */
  lemma CountsSumOverRuns(cfg: Config, ss: seq<State>, ms: seq<Move>, i: nat, gauge: map<string, nat>)
    requires IsRun(cfg, ss, ms) && i < |ss|
    requires Publishes(gauge, Domains(cfg.ks), Stored(ss[i]))
    ensures SumOver(gauge) == |set k | k in Stored(ss[i]) && cfg.ks.IsManagedCopy(Stored(ss[i])[k])|
  {
    RunKeepsInv(cfg, ss, ms, i);
    forall k | k in Stored(ss[i]) ensures cfg.ks.SingleStamp(Stored(ss[i])[k].labels) {
      assert ObjOk(cfg.ks, k, ss[i].store[k].obj);
    }
    CountsSumIff(cfg.ks, Stored(ss[i]), gauge);
  }
}
