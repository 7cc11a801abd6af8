# A model of Replikate's reconcile engine

Replikate copies annotated ConfigMaps and Secrets ("sources") into other namespaces of the
cluster it runs in (the hub) and into registered remote clusters (spokes). Ownership of a copy
lives only in its labels; several sources, several hubs, users and an older version of the
controller write into the same stores, and the controller reads them through a cache that may be
behind. This project models the engine in Dafny and proves what holds of those stores for every
state, every run and every interleaving, and where a promise of the code fails, the input on
which it fails and the exact condition under which it holds.

## How it is built

Three views of the same code, tied together by shared definitions:

* **Meaning, one key at a time.** `Copies.dfy` and `Reconcile.dfy` say what a pass does to a key
  from what the key held before: `Judge` and `Placed` (upsertCopy), `SweptAt` (deleteCopies),
  `SyncedAt` (a sync pass on one cluster), `PassAt` and `PassWrites` (a whole reconcile on every
  cluster). `Readings.dfy` and `Promises.dfy` say what these come to in terms of the labels,
  annotations, finalizers and namespaces alone, first for single decisions, then for a whole
  pass and for a run come to rest. `Passes.dfy`, `PrefixMove.dfy`, `Migration.dfy` and
  `SharedSpoke.dfy` prove the theorems about them.
* **The imperative code.** `Fleet.dfy` is a mutable set of API servers in which every call may
  fail, a failed write may have landed, and a List may still report objects already removed and
  miss objects just stored. `Syncer.dfy` is the Syncer class with the source's loops;
  `Calls.dfy` and `Outcomes.dfy` carry its proofs. Its methods are proved to realise the meaning
  above, key by key and cluster by cluster, and to issue write calls exactly where the meaning
  says, when no call fails and no list misses an object to delete (`InView`); and otherwise to
  leave every key as before or as after. `Registry.dfy` holds the spoke registry and the
  credential reconciler, `Enqueue.dfy` the credential event, `DomainCounter.dfy` the migration
  gauge.
* **The state machine.** `Controller.dfy` interleaves any number of workers at the grain of
  single API calls with users, namespace changes and restarts, on the hub. Objects carry
  resource versions, Create fails on a taken key, Update on a stale version, Delete takes none;
  a call may succeed, fail, or take effect and lose its answer. Reads come from the cache: of a
  source and of a copy's key any version it ever held or nothing, of the namespaces anything,
  and a List may miss stored copies and report any that once matched. An event a read has missed
  arrives later, and any source may be woken at any time. `Safety.dfy` (no orphans, first writer
  wins), `Convergence.dfy` (quiescence means converged) and `Rollout.dfy` (migration over runs)
  prove what every reachable state keeps. `Uninterrupted.dfy` ties the machine to the meaning
  above: a worker left alone, with every call succeeding and every read up to date, does exactly
  what a pass is said to do to the hub. `Witnesses.dfy` holds concrete inputs on which a
  plausible promise fails, `Signals.dfy` what the documented end of a migration leaves out.

`Text.dfy`, `Keys.dfy`, `KeySet.dfy`, `CrossCluster.dfy` and `Objects.dfy` hold strings, the key
contract, the target-clusters parser and the stored objects. `dafny verify dfyconfig.toml`
checks everything.

## Side conditions

* A source's own labels contain no key of any honoured domain's stamp (`Clean`), because
  applyCopyMeta copies them verbatim. `SingleStampIff` says exactly what depends on it.
* What is stamped for a source bears its name (`Named`, `Tidy`), and every copy is stamped under
  one domain (`SingleStamp`). Both are kept by every pass (`PassKeepsNames`,
  `ActsKeepsSingleStamps`) and by every move of the machine (`StepKeepsInv`).
* A source is not stamped as a copy of itself (`NotOwnCopy`, `Regular`).
* Distinct spoke ids reach distinct clusters, none of them the hub (`Separate`). That the hub is
  never a spoke is proved from the credential reconciler (`HubIsNeverASpoke`).
* The same source is never reconciled by two workers at once, and what the workers read of one
  source never goes back to an older version.
* Users do not forge stamps, strip a Replikate finalizer, undo a deletion, or put stamp labels
  on a source (`UserMay`). They may edit, delete and strip copies.
* At rest nothing is queued, no event is on its way and no worker is busy (`AtRest`). That
  wanted copies are in place at rest is claimed key by key: for the key of a namespace the
  source wants, since the source was last queued, nothing but its copy or an object left by
  config-syncer was there (`Unblocked`) nor seen there (`SeesFree`), and users created nothing
  there and stripped no stamp there (`Considerate`). Objects and sources of the same name
  elsewhere do not matter. That no copy is out of place and none is outdated needs none of
  these; that nothing is left to clean up needs only that no list made for a clean-up misses a
  live copy (`CleansFully`), see below.

## Where the code and its promises differ

* NewKeySet says the set never lists a domain twice. It drops blanks and the primary, not
  repeats inside the legacy list: `RepeatedLegacyDomainIsKept`, and the exact condition on the
  configured strings, `ListsNoDomainTwiceIff`. All other results hold with repeats.
* applyCopyMeta and the domain counter say a written copy carries one domain's mark. That is so
  if and only if the source's own labels carry no legacy mark: `SingleStampIff`, with a failing
  source in `MarkedSourceMarksTwice`.
* Passes settle everything except stale copies some finalizer holds: those are deleted again by
  every later pass (`TwoPassesSettleIff`, and a world no number of passes settles,
  `HeldCopyNeverSettles`).
* A finalizer is said to keep a source until its copies are gone. The client that lists the
  copies reads from the manager's cache, so a clean-up may miss a copy stored a moment ago, drop
  the finalizers, and leave that copy for ever: `MissedCopyIsOrphaned` is such a run, at rest at
  its end. `NoOrphansIff` is the exact condition over all runs, however stale the reads: there
  is never an orphan if and only if no source loses its finalizers while a copy of it lives
  (`StepOrphansIff` says it of every single move). It holds if no cleaning list misses a live
  copy (`NoOrphansEver`); and at rest sources that are gone, deleted or no longer annotated have
  no live copy if and only if there are no orphans (`QuiescentMeansCleanedUpIff`).
* The migration note names two signals after which the legacy prefix can be dropped. They are
  read off the hub, and say nothing about a legacy finalizer, a legacy target-clusters
  annotation, or copies on spokes. `PassesAgreeIff` is the exact condition for passes through
  the same registered spokes to agree, `SameSpokesIff` the exact condition for the same spokes
  to be registered. With both signals clear, `StuckAfterDropping` is a source that can then
  never be deleted, and `SpokeCopyLeftBehind` a world in which a source's own copy on a spoke is
  migrated with the list and refused without it.
* Being at rest does not mean every wanted copy exists. A source that met a foreign object, or
  another source's copy, at a wanted key is not woken when it goes (`BlockerGoneNobodyWoken`);
  and a Create that finds the key taken is reported as "created" and not retried
  (`CreateComesSecond`, a run in which nothing ever blocked the key). At rest, over all runs, a
  wanted key holds the up-to-date copy if and only if it holds a copy of the source at all:
  copies may be missing, never outdated (`QuiescentMeansUpToDate`). When they are not missing is
  `QuiescentMeansPlaced`, whose condition excludes both runs. That one goes one way: a key that
  was blocked may still have been filled before the run came to rest.

## Model

| member | source | states |
|---|---|---|
| Keys.NewKeysInjective | internal/controller/replikate.go:72-84 | Two keys of any two domains are equal only if they are the same key of the same domain, by the last slash |
| KeySets.NewKeySet | internal/controller/keyset.go:35-44 | The set has the primary's keys and those of every kept legacy domain in order, and no key of any kind of one equals another |
| Keys.KeysAreSpelled | internal/controller/replikate.go:72-84 | Under any domain the eight keys read as the documentation spells them |
| Text.TrimSpaceTrims | internal/controller/keyset.go:38 | Trimming takes blanks off both ends, all of them and nothing else |
| KeySets.NewKeySetSound | internal/controller/keyset.go:32-44 | Whatever strings are configured, no two keys of the resulting set, of whatever kind, collide |
| KeySets.ListsNoDomainTwiceIff | internal/controller/keyset.go:32-44 | The set lists no domain twice if and only if the configured legacy strings, trimmed, repeat nothing but blanks and the primary |
| KeySets.RepeatedLegacyDomainIsKept | internal/controller/keyset.go:32-44 | A concrete input on which a legacy domain is listed twice |
| KeySets.ReconcileFinalizer | internal/controller/keyset.go:234-246 | The object gets the migrated finalizers and nothing else changes; changed is reported exactly when it differs |
| KeySets.MigratedFinalizersMeaning | internal/controller/keyset.go:231-246 | Afterwards the primary finalizer is present, no legacy one is, foreign ones stay, and doing it again changes nothing |
| KeySets.RemoveAllFinalizers | internal/controller/keyset.go:250-254 | Every honoured finalizer goes, in whatever order the domains are listed, and no other |
| KeySets.ApplyCopyMeta | internal/controller/keyset.go:185-204 | The copy gets the source's labels under the primary stamp and its annotations without sync keys and last-applied; the rest of the copy stays |
| KeySets.OwnerReadingsAgree | internal/controller/keyset.go:110-150 | Under one stamp, the label selector of deleteCopies, ownsCopy and copyOrigin name the same owner |
| Readings.SelectorIsTheValue | internal/controller/keyset.go:82-89 | The selector a source asks for is the value of its sync annotation, under the first domain it carries one of |
| Readings.ClustersAreTheValue | internal/controller/keyset.go:93-100 | The clusters it asks for are the value of its target-clusters annotation, under the first domain it carries one of, and it asks for none if and only if it carries none |
| Readings.BranchReadOff | internal/controller/syncer.go:80-111 | Which branch is taken, for every source, read off its deletion mark, sync annotations and finalizers and what its selector parses to |
| Copies.WrittenCopyIsRecognised | internal/controller/keyset.go:185-204 | A written copy is recognised under the primary, maps back to its source, is owned by it, and is no source under any domain |
| Copies.SingleStampIff | internal/controller/domain_counter.go:51-54 | A written copy carries one domain's mark if and only if the source's labels carry no legacy one |
| Witnesses.MarkedSourceMarksTwice | internal/controller/keyset.go:178-194 | A concrete source whose copies carry two marks |
| Copies.LegacyCopyIsRewritten | internal/controller/syncer.go:247-261 | An owned copy under a legacy domain is never taken as up to date: it is always migrated |
| Copies.PlacedMeaning | internal/controller/syncer.go:220-284 | upsertCopy leaves exactly the untouchable objects alone; everything else ends as the copy, keeping its finalizers, and is written only if it differs |
| Readings.UpsertReadOff | internal/controller/syncer.go:220-284 | What is neither this hub's copy of the source, by the labels of its first stamp, nor config-syncer's stays as it is; all else becomes the copy; a call is made exactly if that makes a difference |
| Readings.TakenOverIff | internal/controller/replikate.go:142-152 | An unmanaged object is overwritten if and only if it carries config-syncer's origin annotation or a label whose key begins with that key |
| Witnesses.KnownByItsLabel | internal/controller/replikate.go:142-152 | A concrete object adopted for the beginning of a label key, and one refused whose label key is itself a beginning of that prefix |
| Readings.CopyIsReadOff | internal/controller/keyset.go:185-204 | Entry by entry, a copy carries the stamp and every other label of the source, and every annotation of the source but last-applied and all sync annotations; this determines it |
| Readings.PruneReadOff | internal/controller/syncer.go:302-322 | An object is deleted if and only if it lies outside keep, a stamp on it names the source, and its first stamp names this hub or none, or this hub has no name; deleted means gone, or marked while finalizers hold it |
| Readings.CopyOriginReadOff | internal/controller/keyset.go:142-150 | A copy maps back to a source if and only if its first stamp names that source in full |
| Promises.EventsWake | internal/controller/syncer.go:388-408 | An event wakes the object itself if it carries a sync annotation or finalizer of any domain, the source its first stamp names in full, and nobody else |
| Calls.ActionTells | internal/controller/syncer.go:200-285 | upsertCopy reports created, adopted, updated or nothing exactly as the key was empty, changed from unmanaged, changed from managed, or did not change |
| Controller.AnswersTell | internal/controller/syncer.go:216-283 | In the machine a write whose answer is lost has done what it does when answered, one that fails has done nothing, and after either the source is retried |
| Controller.GoneOrChanged | internal/controller/syncer.go:95-98 | Writing back a source gone meanwhile ends the reconcile without an error; writing back one changed meanwhile is an error and changes nothing |
| Controller.ReadsMayBeStale | cmd/main.go:114 | A worker may read a key in any version it ever had, or as missing, and any namespaces |
| Controller.ListsMayMiss | cmd/main.go:114 | A worker's list may miss any of the copies stored |
| Controller.UsersMay | internal/controller/syncer.go:385-387 | Users may create anything that is not stamped, edit a copy's payload, strip its stamp, and delete anything |
| Passes.SyncIsExact | internal/controller/syncer.go:113-148 | After a sync pass each target holds the copy or its unchanged untouchable object, no live copy of the source is elsewhere, every other object is untouched |
| Passes.SyncIsDeterministic | internal/controller/syncer.go:132-148 | The outcome of a pass is unique, so it does not depend on the order targets are visited in |
| Promises.HubAfterReplicating | internal/controller/syncer.go:104-148 | After a pass, on the hub: in each namespace the parsed selector matches, but the source's own, the terminating and the excluded, the copy stands or an object that is none of its business as before; in all others the key holds what it held or what a prune leaves |
| Promises.SpokeAfterReplicating | internal/controller/cross_cluster.go:60-124 | After a pass, on a spoke: untouched without the annotation; with it the copy, under this hub's name, stands in exactly the namespaces listed there, is pruned in all others, and no other hub's copy has changed |
| Promises.AfterFixing | internal/controller/syncer.go:93-100 | A live source whose finalizers are not in place gets the primary one, loses the legacy ones, keeps all others, and nothing else happens on any cluster |
| Promises.AfterCleaning | internal/controller/syncer.go:178-195 | A source deleted or no longer annotated that carries a finalizer loses all Replikate finalizers and no other, going if nothing else holds it, and every key of the hub and of every spoke is as a prune leaves it |
| Promises.QuietPasses | internal/controller/syncer.go:80-111 | A pass for a source that is not there, none of the controller's business, or whose selector does not parse changes nothing on any cluster |
| Passes.PassKeepsNames | internal/controller/syncer.go:292-306 | A pass of one source, even a failed one, keeps every other source's copies under its name and every object under one stamp |
| Passes.SecondSyncAt | internal/controller/syncer.go:256-261 | A second pass writes to a key exactly when it is a stale copy that a finalizer holds |
| Passes.TwoPassesSettleIff | internal/controller/syncer.go:77-174 | From any state and branch, the third pass writes nothing on any cluster if and only if no stale copy of a live source was held by a finalizer |
| Witnesses.HeldCopyNeverSettles | internal/controller/syncer.go:302-324 | A concrete world in which every pass deletes the same held copy again |
| Api.Fleet.Delete | internal/controller/syncer.go:320-322 | An object with finalizers is only marked, any other is removed; a missing one is not found; a failed call has had its effect or none |
| Api.Fleet.List | internal/controller/syncer.go:298-302 | A successful list reports every stored match the cache has seen, and otherwise only matches removed before and still cached |
| Syncing.Syncer.UpsertCopy | internal/controller/syncer.go:200-285 | The target key ends as Placed says, on an error perhaps still as before, and nothing else changes on any cluster; the action and the write call are those of the decision |
| Syncing.Syncer.SweepItem | internal/controller/syncer.go:302-324 | One listed item is skipped with reason or deleted and counted once |
| Syncing.Syncer.SweepItems | internal/controller/syncer.go:302-324 | After the inner loop every listed namespace is seen and nothing to delete was passed over |
| Syncing.Syncer.DeleteCopies | internal/controller/syncer.go:290-327 | Deletes exactly the copies of the source under any domain, outside keep, of this hub or unstamped, if what is stamped bears the source's name and no list misses one of them, and counts each once when the cache holds no leftovers; always at most one object per namespace, and every key as before or deleted, on errors and missed objects too |
| Calls.FullSweep | internal/controller/syncer.go:290-327 | Many lists with a seen set and early skips come to the one-line set definition if no list misses an object of that set, for repeated domains and lists that see earlier deletes or not |
| Calls.OnePerNamespace | internal/controller/syncer.go:292-306 | Deduping by namespace: of two objects in one namespace at least one stays |
| Calls.FilledThenPruned | internal/controller/syncer.go:131-148 | Upserts into all targets, then the prune, make a cluster Synced, though the lists may miss the copies just written; with failures every key is as before or as after a full pass |
| Calls.FilledStaysObserved | internal/controller/syncer.go:131-148 | Filling the targets puts nothing in the way of the prune: what it has to delete it still sees, if it saw it before |
| Syncing.Syncer.SelectTargets | internal/controller/syncer.go:114-129 | The target set is every eligible namespace: not the source's own, not terminating, not excluded, matched |
| Syncing.Syncer.FillLocally | internal/controller/syncer.go:131-142 | The local upserts stop at the first error; without one all targets are filled, in any order |
| Syncing.Syncer.ReplicateLocally | internal/controller/syncer.go:113-148 | The hub's share of a pass; an error is reported exactly when a call to the hub failed |
| Syncing.Syncer.ReconcileSpoke | internal/controller/cross_cluster.go:82-121 | One spoke's share: filled where listed and pruned elsewhere, going on after an error; failed exactly when a call there failed |
| Syncing.Syncer.ReconcileRemote | internal/controller/cross_cluster.go:60-124 | Every registered spoke gets its own share whatever the others do, no other cluster is called, and failed is reported exactly when some call failed |
| Calls.FanStep | internal/controller/cross_cluster.go:76-122 | A spoke's outcome is not changed by the spokes handled after it |
| Calls.ShareIsLocal | internal/controller/cross_cluster.go:51-59 | A cluster's share depends only on its own store, cache and failures |
| Syncing.Syncer.DeleteRemoteCopies | internal/controller/cross_cluster.go:131-147 | Every registered spoke is pruned of the source's copies, independently; failures are not reported |
| Syncing.Syncer.CleanupAndRemoveFinalizer | internal/controller/syncer.go:178-195 | Prunes the hub, then the spokes, then frees the source; the finalizers come off only after every copy the lists show is off the hub; an error is reported exactly when a hub call failed |
| Outcomes.CleanedFreesLast | internal/controller/syncer.go:182-194 | If the source changed at all, every other key of the hub is as after a full prune, provided the lists missed none of the copies to delete |
| Syncing.Syncer.Replicate | internal/controller/syncer.go:105-174 | A sync pass on hub and spokes realises its meaning on every cluster and ends as Ended says |
| Syncing.Syncer.ReconcileSource | internal/controller/syncer.go:77-174 | In every branch each cluster ends as its meaning says if it and the hub had no failure and its lists missed nothing to delete, and key by key as before or after otherwise; error and early retry are returned exactly for hub and spoke failures |
| Outcomes.AllReplicated | internal/controller/syncer.go:105-174 | The hub's share followed by the fan-out is a whole replicating pass, cluster by cluster |
| Outcomes.AllDone | internal/controller/syncer.go:77-174 | With no failure and nothing to delete missed, the world is exactly PassAt everywhere and the write calls are exactly PassWrites |
| Outcomes.DestsOnOne | internal/controller/cross_cluster.go:78-97 | With distinct ids on distinct clusters, what is asked of a cluster is what is asked of its id |
| Outcomes.VettedSpokesSpareTheHub | internal/controller/cluster_controller.go:90-117 | With spokes registered only by vetting and a known hub identity, the remote path never calls the hub |
| TargetClusters.ParseTargetClusters | internal/controller/cross_cluster.go:20-34 | Each non-blank id that occurs maps to its namespaces in first-seen order without repeats, and nothing else is there |
| TargetClusters.ParseUndoesPrint | internal/controller/cross_cluster.go:13-34 | A map printed entry by entry, in any interleaving that keeps each id's order, parses back to itself |
| TargetClusters.ParseIgnoresBlanks | internal/controller/cross_cluster.go:20-34 | Blanks around entries, ids and namespaces, and entries of blanks alone, mean nothing: any such spelling parses to the map of the entries it spells |
| TargetClusters.ParseOfConcat | internal/controller/cross_cluster.go:13-34 | Parsing two values joined by a comma merges the second onto the first, first seen first |
| TargetClusters.DestNamespaces | internal/controller/cross_cluster.go:39-50 | The list resolved to concrete namespaces, first occurrences only, in order |
| Enqueue.MapCredentialToSources | internal/controller/syncer.go:367-383 | The requests are the keys, each once, of exactly the sources in the cache that name the spoke; none if the lookup fails |
| Enqueue.ListSources | internal/controller/syncer.go:329-344 | The index lookup reports the sources in the cache, each once, and nothing else |
| Enqueue.RequestsExactly | internal/controller/syncer.go:367-383 | Whatever the order of the index, a key is requested if and only if the cache holds a source there that names the spoke |
| Enqueue.EnqueueAgreesWithEffect | internal/controller/syncer.go:363-383 | A source names a registered spoke if and only if its sync pass would write into some namespace there, and those namespaces are the resolved parsed list |
| Registry.ClusterRegistry.IDs | internal/controller/registry.go:71-80 | Every registered id, each once, in ascending order |
| Registry.ClusterRegistry.Store | internal/controller/registry.go:99-103 | The client replaces any earlier entry and starts as not up |
| Registry.ClusterRegistry.SetUp | internal/controller/registry.go:117-128 | Reachability of a registered id and the gauge, which is set for unregistered ids too |
| Registry.ClusterRegistry.Remove | internal/controller/registry.go:131-136 | The id leaves registry and gauge |
| Registry.ClusterCredentialReconciler.Reconcile | internal/controller/cluster_controller.go:53-132 | One reconcile is one Step of the vetting machine, with its result |
| Registry.RegistryIsLastVetted | internal/controller/cluster_controller.go:53-132 | An id is registered, with that client, if and only if its last deciding credential was vetted |
| Registry.HubIsNeverASpoke | internal/controller/cluster_controller.go:90-117 | Over all credential events no registered client reaches the hub, if its identity is known |
| Registry.SelfSpokeIff | internal/controller/cluster_controller.go:34-43 | Some honest history registers the hub as a spoke if and only if its identity is not configured |
| Registry.GaugeIsTrue | internal/controller/registry.go:117-136 | At reconcile boundaries the gauge reads 1 exactly for ids registered and up |
| Registry.ReachabilityIsLastWord | internal/controller/cluster_controller.go:53-132 | Over all events the gauge of an id reads 1 if and only if the last readable word on it registered it, 0 if and only if that was unreachable, and there is none otherwise; a registered id is up exactly in the first case |
| Registry.AfterLastWord | internal/controller/cluster_controller.go:53-132 | What the last readable word on an id makes of its registration, its client and its gauge, case by case |
| SharedSpoke.ActsOnlyOnOwn | internal/controller/replikate.go:97-113 | A call changes a copy of hub h for a source only if it is made by h for that source |
| SharedSpoke.OnlyTheOwnerActs | internal/controller/cross_cluster.go:60-147 | Over any run of calls by any hubs a copy of hub h stays exactly as it is while h makes no call for its source |
| SharedSpoke.FirstHubClaims | internal/controller/replikate.go:106-112 | An unstamped copy goes to the first hub that writes it |
| SharedSpoke.NamelessHubTakesIff | internal/controller/syncer.go:310-318 | A hub with another identity takes over or deletes h's copy if and only if its identity is empty |
| SharedSpoke.CallsAct | internal/controller/syncer.go:200-327 | upsertCopy and deleteCopies, as proved for the Syncer, are such calls |
| Safety.EveryWriteIsGood | internal/controller/syncer.go:200-285 | Every write, stale reads included, is well formed, spares other sources, keeps the guard unless releasing, and keeps a managed copy's owner |
| Safety.SweepCoversNext | internal/controller/syncer.go:295-326 | Deduping by namespace never loses a copy still to be deleted |
| Safety.StepKeepsInv | internal/controller/syncer.go:77-327 | Every move of workers, users, namespaces and restarts on the hub keeps the invariant, however stale the reads |
| Safety.StepTends | internal/controller/syncer.go:178-195 | A move keeps that there are no orphans and that a clean-up has its source's live copies in hand, if a cleaning list misses none |
| Safety.StepOrphansIff | internal/controller/syncer.go:178-195 | A move leaves the hub without orphans if and only if it does not take the finalizers off a source with a live copy |
| Safety.NoOrphansIff | internal/controller/syncer.go:96-103 | Over all runs on the hub, with failures and stale reads, there has never been an orphan if and only if no source has lost its finalizers while a copy of it was alive |
| Safety.NoOrphansEver | internal/controller/syncer.go:96-103 | Over all runs on the hub, with failures, and stale reads but for cleaning lists, which miss no live copy: a live copy's source exists and carries a Replikate finalizer |
| Witnesses.MissedCopyIsOrphaned | internal/controller/syncer.go:290-327 | A run that ends at rest with a live copy whose source is gone: the cleaning list missed it |
| Safety.StepKeepsOwner | internal/controller/syncer.go:230-245 | No single move on the hub gives a managed copy another owner, however stale the reads |
| Safety.OwnerChangesOnlyThroughAbsence | internal/controller/syncer.go:230-245 | Over a run the owner of a hub key changes only through a moment without a managed copy |
| Convergence.StepAttends | internal/controller/syncer.go:346-408 | Every move keeps: a source that is not queued, nor about to be, is settled, or its worker works on it as it is, for the namespaces it wants |
| Convergence.StepFills | internal/controller/syncer.go:346-408 | A move keeps, for one wanted key that is unblocked and read as such: its source is queued or about to be, or its worker on its way there, or the copy is in place |
| Convergence.QuiescentMeansCleanedUpIff | internal/controller/syncer.go:80-91 | Over all runs on the hub, at rest, whatever the reads missed: no source gone, deleted or no longer annotated has a live copy if and only if there are no orphans |
| Convergence.QuiescentMeansCleanedUp | internal/controller/syncer.go:80-91 | Over all runs on the hub whose cleaning lists miss no live copy, at rest a source gone, deleted or no longer annotated has no live copy |
| Convergence.QuiescentMeansNoStrays | internal/controller/syncer.go:144-148 | Over all runs on the hub, at rest a live source with a readable selector has migrated finalizers and no live copy outside the namespaces it wants |
| Convergence.StepFreshens | internal/controller/syncer.go:346-408 | Every move keeps, for one key: its source is queued or about to be, or its worker on its way there, or the key holds no outdated copy |
| Convergence.QuiescentMeansUpToDate | internal/controller/syncer.go:77-174 | Over all runs on the hub, at rest a wanted key holds an up-to-date copy if and only if it holds a copy of the source |
| Convergence.QuiescentMeansPlaced | internal/controller/syncer.go:77-174 | At rest a source has an up-to-date copy on the hub in each namespace it wants whose key has not been blocked, nor read as blocked, since the source was last queued |
| Convergence.QuiescentMeansConverged | internal/controller/syncer.go:77-174 | So a live source none of whose wanted keys was blocked has exactly its desired copies on the hub, whatever bears its name elsewhere |
| Promises.AtRestCopiesStand | internal/controller/syncer.go:104-148 | At rest on the hub, a source none of whose wanted keys was blocked has its copy, entry by entry, in every namespace its selector matches but its own, the terminating and the excluded, and nothing alive elsewhere bears its name |
| Promises.AtRestNothingLeft | internal/controller/syncer.go:80-91 | At rest on the hub, with cleaning lists that miss nothing alive, nothing alive bears the name of a source gone, deleted or without a sync annotation |
| Witnesses.BlockerGoneNobodyWoken | internal/controller/syncer.go:385-408 | A run that ends at rest with a wanted key empty: its blocker was deleted and nobody woken |
| Witnesses.CreateComesSecond | internal/controller/syncer.go:216-219 | A run that ends at rest without the copy though nothing ever blocked the key: a Create found it taken |
| Uninterrupted.ReconcileRealisesPass | internal/controller/syncer.go:77-174 | From any reachable state, one uninterrupted reconcile of the machine with every call succeeding and every read up to date leaves every key of the hub as PassAt says |
| PrefixMove.SameDecision | internal/controller/keyset.go:110-116 | Controllers with the old prefix and with both prefixes create, refuse, conflict and adopt in the same cases |
| PrefixMove.SameBranch | internal/controller/syncer.go:80-103 | They take the same branch, but for a finalizer pass the new one may need first |
| PrefixMove.PassesKeepTwins | docs/design/dual-annotation-domain.md:35-49 | From worlds that agree up to renaming stamp keys, a pass of each leads to worlds that agree up to renaming, on every cluster |
| PrefixMove.MoveSimulates | docs/design/dual-annotation-domain.md:35-49 | Whatever pass the old controller makes, the new one arrives at its twin in one pass, or two when the first only renames the finalizer |
| PrefixMove.RunsKeepTwins | docs/design/dual-annotation-domain.md:35-49 | Over any sequence of passes of any sources, answered one by one, the two worlds stay twins |
| PrefixMove.TwinsLookAlike | docs/design/dual-annotation-domain.md:47-49 | Such worlds hold the same payloads at the same keys |
| PrefixMove.UpgradeDay | docs/design/dual-annotation-domain.md:78-82 | A world without a trace of the new prefix is its own twin |
| Migration.PassAddsNoLegacyCopy | internal/controller/keyset.go:178-204 | No pass, even a failed one, adds to the copies still under a legacy domain |
| Migration.PassMigratesAllItsCopies | internal/controller/syncer.go:247-284 | A full pass leaves none of its source's copies under a legacy domain, but terminating ones outside the targets |
| Migration.OwnedCopyIsNeverAbsent | docs/design/dual-annotation-domain.md:67-69 | An owned copy in a target namespace exists wherever each key is as before the pass or as after it, so also after a failed write followed by the prune |
| Outcomes.TargetStandsThroughout | internal/controller/cross_cluster.go:96-121 | After every single upsert and delete of a spoke pass an owned copy in a listed namespace is still there |
| Migration.DroppingLegacyIsSafe | docs/design/dual-annotation-domain.md:92-97 | Where nothing legacy is left, a pass leaves the same world and writes the same with or without the legacy list, and nothing legacy appears |
| Migration.DroppingTooEarlyTearsDown | docs/design/dual-annotation-domain.md:92-97 | A finalized source is torn down under the primary alone if and only if it lacks the primary sync annotation |
| Signals.PassesAgreeIff | docs/design/dual-annotation-domain.md:80-92 | With both documented signals clear on the hub, and through the same registered spokes, passes with and without the legacy list agree on every key of every cluster if and only if the source has no legacy finalizer, no object at a spoke key the pass reaches is read otherwise for the legacy list, and what only a legacy target-clusters annotation reaches would not change |
| Signals.KeyAlikeIff | internal/controller/keyset.go:110-150 | A key of a cluster in scope is left alike with and without the list if and only if its object is not stamped only under a legacy domain in a way that decides: owned but not adoptable or adoptable but not owned at a target, deleted only with the list elsewhere |
| Signals.SameSpokesIff | internal/controller/keyset.go:256-266 | The same spokes are registered with and without the legacy list if and only if every credential honoured at all carries the primary label |
| Witnesses.SpokeCopyLeftBehind | internal/controller/domain_counter.go:55-74 | A concrete world with both signals clear whose passes disagree: a copy on a spoke is still under the legacy domain |
| Signals.StuckAfterDropping | docs/design/dual-annotation-domain.md:92-97 | A deleting source with both signals clear that is freed with the list and stuck for ever without it |
| Rollout.MigrationNeverGoesBack | docs/design/dual-annotation-domain.md:84-86 | Over any run a hub key that holds a legacy-stamped copy has held one all along |
| Rollout.WorkerKeepsTargets | docs/design/dual-annotation-domain.md:67-69 | A replicating worker never takes away a live copy on the hub in a namespace it targets, at any call |
| Rollout.QuiescentMeansMigrated | docs/design/dual-annotation-domain.md:47-49 | Over all runs, at rest no live copy on the hub of a live source with a readable selector is under a legacy domain |
| DomainCounting.Count | internal/controller/domain_counter.go:55-74 | Without a list error each domain's gauge is what its last list counted, though the store moves on between lists, and nothing else is published; an error leaves that gauge as it was |
| DomainCounting.CountsSumIff | internal/controller/domain_counter.go:51-54 | The published series sum to the number of managed copies if and only if no object carries two marks, also when a domain is configured twice |
| Rollout.CountsSumOverRuns | internal/controller/domain_counter.go:51-54 | In every state of every run, series that count that state sum to the number of managed copies on the hub |

## Left out

- Syncing.Syncer.ReconcileSource: the outcome is stated for a source read as stored, not stamped as its own copy, and for spokes whose ids reach distinct clusters other than the hub; writers between its calls are modelled in Controller.dfy, for the hub.
- Syncing.Syncer.Replicate: the outcome is stated for spokes whose ids reach distinct clusters other than the hub.
- Syncing.Syncer.CleanupAndRemoveFinalizer: the outcome is stated under the same two conditions as that of ReconcileSource.
- Syncing.Syncer.ReconcileRemote: says nothing of single spokes when two ids reach one cluster, or one reaches the hub; then only the frame and the failure report are stated.
- Syncing.Syncer.DeleteRemoteCopies: as ReconcileRemote; and it does not state that remote copies vanish, because the source treats unreachable spokes as best effort.
- Convergence.QuiescentMeansPlaced: one direction only, see above.
- Api.Fleet.List: reports a stored object as it is stored or not at all, not in an older version; Controller.dfy models older versions, for the hub.
- Syncing.Syncer.UpsertCopy: the key is read as stored; reads of older versions are modelled in Controller.dfy, for the hub.
- TargetClusters.ParseTargetClusters: does not distinguish the nil map from the empty one; callers only index it.
- KeySets.ApplyCopyMeta: works on values; two Go objects sharing one map are not captured.
- Safety.StepKeepsInv: the machine has no spokes; the remote path is covered by Syncer.dfy and SharedSpoke.dfy. After a restart the cache is taken to be filled from what is stored.
- Safety.NoOrphansEver: its condition, that no cleaning list misses a live copy, is sufficient; the exact one is that of NoOrphansIff.
- Rollout.QuiescentMeansMigrated: says nothing of copies on spokes, which the documented gauge does not count either.
- Liveness: that the queue empties is not claimed, only what holds when it has.
- Deletes between List and Delete of one call: Delete takes no version, so no claim is made that what it deletes is what was listed.
- Clusters whose hubs run different key prefixes: all hubs on a shared spoke use one key set here.
- One store per kind: ConfigMaps and Secrets never meet, so one store with a two-case payload stands for either.
- The label-selector grammar (labels.Parse): a parameter from text to an optional predicate on labels.
- Kubeconfig parsing, client building and Upsert: a credential is malformed, unreachable, or reaches a cluster with an identity.
- NamespaceSet, flags, manager wiring, the webhook, the chart: plumbing.
- Events, logs and Prometheus counters, but for the returned actions, the deletion count, the up gauge and the per-domain gauge.
- RWMutex, timers, timeouts, leader election and notification channels.
- What only the design notes have: "*", self, remote selectors, remote drift watches, exclusions on spokes.
