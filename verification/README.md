# Verified models of the operator-helm module

This project models the parts of the module whose guarantees hold only over whole runs or over two
operations that must undo each other, and proves those guarantees in Dafny. `dafny verify
dfyconfig.toml` checks all of it.

The files follow the components of the module:

- `Claim*`: the chart claim protocol. One Lease per repository/chart pair decides which
  HelmClusterAddon uses the pair. `ClaimProtocol` is a state machine in which every operation of every
  addon advances by one API call at a time and each call can be rejected or served with its answer
  lost; `ClaimRuns` says what whole operations achieve beside others; `ClaimClient` is the client code,
  proved to run that state machine.
- `Index*`: the streaming decoder of index.yaml. `IndexDecoder` is its loop over lines as a function
  of the state, `IndexLayout` gives the meaning of a document in helm's block layout, `IndexBatches`
  shows that batches do not matter, `IndexAccepted` that nothing outside that layout is accepted, and
  `IndexReader` is the loop over bytes with its variables.
- `Catalog*`: the chart catalog. `CatalogOrder` and `CatalogMerge` are the version order and the
  merge, `CatalogFetch` the examination of one oci repository, `CatalogPasses` and `CatalogProgress`
  runs of passes over one chart, `CatalogSync` one synchronization with every write able to fail,
  `CatalogMarks` and `CatalogRetention` what runs of it keep, `CatalogStore` the code itself,
  `CatalogMigration`, `CatalogMigrationRuns` and `CatalogMigrationRepetition` the renaming of catalog
  objects.
- `Release*`: the status of a release. `ReleaseInternalState` reduces the conditions of internal
  objects, `ReleaseDecision` is what one pass decides, `ReleaseRuns` and `ReleaseLifecycle` what holds
  over runs of passes, `ReleaseReconciler` the code that builds and writes a decision.
- `Rewriter*`: the API rewriter. Names and label maps (`RewriterNames`, `RewriterMaps`), JSON patches
  (`RewriterPointer`, `RewriterPatch`, `RewriterPatchProof`), groups and kinds (`RewriterRules`,
  `RewriterShipped`), JSON objects and lists (`RewriterJson`, `RewriterObjects`, `RewriterFields`,
  `RewriterRoundTrip`), excludes (`RewriterExcludes`) and paths (`RewriterEndpoint`).
- `Naming`: the names of catalog objects.

Code that works on values is a function; code that works step by step is a method or a class proved
against such a function, and the guarantees are proved about the function. YAML, version parsing,
hashing, lower-casing, regular expressions, registries and the API server's faults are parameters, so
the results hold for all of them.

Some properties hold only under a condition. Where that is so the code is modelled as it is, the
condition is proved to be the exact one, or a concrete case outside it is shown:

- Exclusive claims need deleted addons' names not to be reused (`NameReuseBreaksExclusion`).
- An incremental pass may keep a media type a full pass would drop, exactly for an unsupported version
  nobody uses (`IncrementalAgreesWithFull`).
- Marks survive as long as no chart has a second object (`UnmigratedTwinClearsMark`); the migration
  establishes that and synchronizations keep it (`NoLegacyLeft`, `SyncKeepsNames`). For any objects
  `UnansweredStaysIff` says exactly when a version nobody answered for stays outstanding.
- The migration loses what is moved under a name that an object of another chart, moved later, still
  carries: exactly that (`VersionSurvivesIff`), even if the chart has its object back in the end
  (`ReclaimedNameLosesVersion`).
- A migration that stopped can be repeated, whatever versions the objects record, exactly if no object
  still to be moved carries the current name of a chart moved before it (`RepetitionIff`); a concrete
  catalog outside that is `LaterClaimBreaksRepetition`.
- Payloads round-trip on the path for custom resources. The kinds with rewriters of their own are a
  parameter there, and none of them is a kind of the shipped rules (`ShippedTakesTheCommonPath`).
- Between passes a release can be both stalled and reconciling, exactly while work is announced on a
  stalled one (`BothWhileAnnouncedIff`), although the comments in evaluate.go speak of one or the other.
- Restoring merges labels exactly if a rule bound to a value also changes the name (`NeverMergesIff`).
- Renaming a JSON patch leaves the `from` of a move or copy alone (`MoveFromIsNotRenamed`), which is
  right for exactly the moves and copies `TransferCommutesIff` names, and renames the path of a single
  key by its name alone, which is right for exactly the rules without values (`AllCommuteIff`).
- A cluster-scoped path of more than six segments does not survive being parsed and printed
  (`ParsePrintIff`).

Assumptions that stand as preconditions: a listing names no tag twice; one reconcile pass runs per
object at a time; no other chart that the repository offers (for retention) or that labels an object of
the catalog (for migration) derives the object name of the chart in question, which the hash in the name
ensures unless two hashes collide (`NamesApart`); conditions carry a status and a reason, as the API
server demands; a source calls itself ready only while it holds an artifact.

## Model

| member | source | states |
|---|---|---|
| `ClaimProtocol.MutualExclusion` | images/operator-helm-controller/internal/claim/claim.go:34-99 | In every interleaving of single API calls of any number of addons, with calls rejected or answered to nobody, two addons never both hold the claim on one lease, provided no deleted addon's name is reused |
| `ClaimProtocol.PairExclusion` | images/operator-helm-controller/internal/claim/claim.go:34-37 | The same for repository/chart pairs, whatever the hash in the lease name, and the one holder is an addon that exists |
| `ClaimProtocol.HeldLostIff` | images/operator-helm-controller/internal/claim/claim.go:77-99 | An event takes a claim from an existing addon exactly when it is a take-over still locked to the revision of the lease that addon is on record for |
| `ClaimProtocol.BasePreserved` | images/operator-helm-controller/internal/claim/claim.go:55-99 | Every event keeps the invariant over snapshots held by passes in flight: a lease read earlier is the one in the store if the revisions agree |
| `ClaimProtocol.StalePreserved` | images/operator-helm-controller/internal/claim/claim.go:245-259 | A take-over in flight is always aimed at a lease whose recorded holder is gone, as long as names are fresh |
| `ClaimProtocol.InvAlongRun` | images/operator-helm-controller/internal/claim/claim.go:55-259 | The whole invariant holds along every run |
| `ClaimProtocol.HandOver` | images/operator-helm-controller/internal/claim/claim.go:229-241 | A lease changes hands only by a take-over, and only away from an addon that no longer exists |
| `ClaimProtocol.DeletedByItsHolder` | images/operator-helm-controller/internal/claim/claim.go:129-139 | A drop never deletes a lease someone else has taken, nor one its holder meant to keep |
| `ClaimProtocol.SharedLeaseIff` | images/operator-helm-controller/internal/claim/claim.go:261-267 | With a hash that keeps the texts of the two pairs apart, they share a lease exactly when their parts joined by a dash read the same |
| `ClaimProtocol.DistinctPairsShareALease` | images/operator-helm-controller/internal/claim/claim.go:261-267 | There are such pairs: the name joins its parts with a dash |
| `ClaimRuns.DropAllLeavesNothing` | images/operator-helm-controller/internal/claim/claim.go:159-203 | A DropAll that reports success leaves its addon no lease, whatever ran beside it |
| `ClaimRuns.DropStaleKeepsPairsInUse` | images/operator-helm-controller/internal/claim/claim.go:141-157 | Neither the pair the spec names nor the one the record still names loses its claim to a DropStale |
| `ClaimRuns.AcquireAlone` | images/operator-helm-controller/internal/claim/claim.go:53-99 | An undisturbed Acquire ends within three calls and succeeds exactly when the lease is free, its own, or recorded for nobody who exists; otherwise it names the holder and changes no lease |
| `ClaimRuns.NameReuseBreaksExclusion` | images/operator-helm-controller/internal/claim/claim.go:77-98 | The assumption on names is needed: a concrete run with a reused name ends with two holders of one claim |
| `ClaimClient.AcquiredIsHeld` | images/operator-helm-controller/internal/claim/claim.go:53-99 | An Acquire that reports success holds the claim for an addon that still exists, whatever the others did in between |
| `ClaimClient.Acquire` | images/operator-helm-controller/internal/claim/claim.go:55-99 | The method, run call by call against a server others keep using, is one operation of the protocol and reports its outcome |
| `ClaimClient.ReadOrCreate` | images/operator-helm-controller/internal/claim/claim.go:55-77 | Reading the lease, creating it if there is none, and reading the winner's if the create race is lost, leads the pass to judging the lease read |
| `ClaimClient.TakeOver` | images/operator-helm-controller/internal/claim/claim.go:90-96 | The take-over is locked to the revision read: a conflict is a refusal naming the old holder, not an error |
| `ClaimClient.CreateLease` | images/operator-helm-controller/internal/claim/claim.go:205-227 | Creating the lease: created, lost the race, or failed, as the protocol step says |
| `ClaimClient.IsHolderStale` | images/operator-helm-controller/internal/claim/claim.go:243-259 | A holder is stale exactly when none is recorded or the addon does not exist at the time of the read |
| `ClaimClient.Drop` | images/operator-helm-controller/internal/claim/claim.go:116-139 | The method is the protocol's Drop, locked to the revision it read |
| `ClaimClient.DropOwned` | images/operator-helm-controller/internal/claim/claim.go:165-203 | The loop over the listed leases is the protocol's sweep: each deletion locked to its revision, kept leases left out |
| `ClaimClient.DropStale` | images/operator-helm-controller/internal/claim/claim.go:141-157 | The method frees nothing unless the record names the current pair, and then sweeps all but that one |
| `ClaimClient.DropAll` | images/operator-helm-controller/internal/claim/claim.go:159-163 | The method sweeps every lease of the addon |
| `IndexLayout.BlockLayoutDecodes` | images/operator-helm-controller/internal/client/repository/helm_index.go:36-311 | For every document in helm's block layout and every batch size the line-driven decoder returns exactly what decoding the whole document returns, if and only if every piece is within the limit and the document decodes; otherwise it fails |
| `IndexAccepted.AcceptedIffLaidOut` | images/operator-helm-controller/internal/client/repository/helm_index.go:61-311 | The line-driven decoder accepts a file exactly if it is an index in block layout whose pieces fit and decode, and then returns what it means |
| `IndexLayout.UnbatchedDecodes` | images/operator-helm-controller/internal/client/repository/helm_index.go:61-311 | The same for a decoder that never decodes before a chart is complete |
| `IndexBatches.BatchSizeIrrelevant` | images/operator-helm-controller/internal/client/repository/helm_index.go:107-121 | For every file at all, in layout or not, two batch sizes give the same index or both fail |
| `IndexBatches.Simulation` | images/operator-helm-controller/internal/client/repository/helm_index.go:260-269 | A decoder that flushes full batches stays in step with one that does not, line by line |
| `IndexBatches.DecodeConcat` | images/operator-helm-controller/internal/client/repository/helm_index.go:112-118 | Cut at the beginning of an item, a batch decodes to the concatenation of what its two parts decode to |
| `IndexReader.KeptAlways` | images/operator-helm-controller/internal/client/repository/helm_index.go:260-273 | Over any file the batch kept between two lines stays below indexBatchSize + maxIndexEntrySize bytes |
| `IndexReader.DecodeIndexByEntry` | images/operator-helm-controller/internal/client/repository/helm_index.go:61-311 | The loop over the bytes, updating index, batch and pending block in place, computes the specified decoding and keeps the bound on the batch at every line |
| `IndexReader.RenderedDocumentDecodes` | images/operator-helm-controller/internal/client/repository/helm_index.go:61-311 | A document in block layout written out as text is accepted exactly if its pieces keep to the limit and decode, and is decoded to what it means |
| `IndexReader.DecodeIndex` | images/operator-helm-controller/internal/client/repository/helm_index.go:43-59 | Every file within the limit for a whole decode, in any layout, is decoded as the whole decode does, even where its pieces do not decode alone; a larger one is decoded exactly if it is in block layout and its pieces fit and decode, and then to what it means |
| `IndexReader.Reader.TakeLine` | images/operator-helm-controller/internal/client/repository/helm_index.go:154-303 | One line changes the reader's variables as the specified step says |
| `IndexLines.JoinSplits` | images/operator-helm-controller/internal/client/repository/helm_index.go:145-152 | Cutting a text into lines finds the lines it was put together from |
| `IndexLines.SplitJoins` | images/operator-helm-controller/internal/client/repository/helm_index.go:145-152 | The lines put together again are the text |
| `CatalogOrder.BeforeIsStrictTotalOrder` | images/operator-helm-controller/internal/catalog/merge.go:97-115 | The version comparator is a strict total order on version texts: unparsable last, then precedence (section 11 of SemVer 2.0.0), then text, whatever the parser |
| `CatalogMerge.MergeMeaning` | images/operator-helm-controller/internal/catalog/merge.go:28-95 | Version by version a merge follows the rule: fetched afresh with the media type inherited only in use and without a registry reference, unexamined kept verbatim, in use marked removed, else dropped; nothing is listed twice |
| `CatalogMerge.MergeMembers` | images/operator-helm-controller/internal/catalog/merge.go:28-95 | Which entries a merge holds, for lists with duplicates too |
| `CatalogMerge.MergeIdempotent` | images/operator-helm-controller/internal/catalog/merge.go:28-95 | Merging the same fetch once more changes nothing |
| `CatalogMerge.MergeIgnoresOrder` | images/operator-helm-controller/internal/catalog/merge.go:28-115 | Any permutation of duplicate-free inputs gives the same list |
| `CatalogMerge.CatalogIsItsFindings` | images/operator-helm-controller/internal/catalog/merge.go:97-115 | A sorted duplicate-free list is fixed by what it records for each version |
| `CatalogMerge.SortedUnique` | images/operator-helm-controller/internal/catalog/merge.go:97-115 | Two sorted lists of the same distinct versions are the same list |
| `CatalogMerge.MergeChartVersions` | images/operator-helm-controller/internal/catalog/merge.go:28-95 | The loops over maps and lists compute the specified merge |
| `CatalogFetch.ProbeOrderIsExact` | images/operator-helm-controller/internal/client/repository/oci.go:189-203 | The four probe groups partition exactly the tags needing examination: each is probed once and no other is |
| `CatalogFetch.ResolveMeaning` | images/operator-helm-controller/internal/client/repository/oci.go:239-297 | Every offered tag ends as one reported version, as unexamined, or as vanished; nothing else is reported, and the newest version comes first |
| `CatalogFetch.NewestFirstDescends` | images/operator-helm-controller/internal/client/repository/oci.go:292-295 | The reported versions descend by precedence |
| `CatalogFetch.ResolveChartVersions` | images/operator-helm-controller/internal/client/repository/oci.go:141-298 | The loops filling candidates, probe order, the two arrays, versions and unexamined compute the specified result, for every budget cut-off |
| `CatalogFetch.ExamineAll` | images/operator-helm-controller/internal/client/repository/oci.go:205-268 | Carrying recorded verdicts over and probing the rest settles every offered tag, and the pass is refused exactly when some tag is |
| `CatalogFetch.OrderProbes` | images/operator-helm-controller/internal/client/repository/oci.go:190-203 | The nested loops compute the probe order |
| `CatalogFetch.ProbeOne` | images/operator-helm-controller/internal/client/repository/oci.go:242-267 | A probe writes only its own place; a pending answer after the budget is spent is not the registry's; a denied one fails the pass |
| `CatalogPasses.PassMeaning` | images/operator-helm-controller/internal/client/repository/oci.go:161-298 | What one pass does to a recorded chart, version by version |
| `CatalogPasses.IncrementalAgreesWithFull` | images/operator-helm-controller/internal/client/repository/client.go:81-103 | After any run against an unchanging registry, from a catalog without outdated verdicts, a pass that skips recorded verdicts offers the versions, reasons and messages a full pass would; media types differ exactly for an unsupported version nobody uses that still records one |
| `CatalogPasses.RunKeepsAgreement` | images/operator-helm-controller/internal/client/repository/client.go:83-103 | Along every run, with any cuts, failures and refreshes, an established verdict is what the registry would answer |
| `CatalogPasses.AgreementStarts` | images/operator-helm-controller/internal/client/repository/client.go:66-68 | An empty catalog and a freshly marked one have no outdated verdict, whatever the registry |
| `CatalogProgress.PassProgress` | images/operator-helm-controller/internal/client/repository/oci.go:189-203 | A pass that completes the first n tags of its probe order leaves n fewer tags never seen, stale or listed again, or none |
| `CatalogProgress.FrontIsTodo` | images/operator-helm-controller/internal/client/repository/oci.go:189-198 | The first three groups hold exactly those tags, and come first |
| `CatalogProgress.EveryTagIsExamined` | images/operator-helm-controller/internal/client/repository/oci.go:161-298 | Over any run against one listing those tags only get fewer, and after as many successful passes as there were of them every offered tag has been examined |
| `CatalogMarks.MarksSurvive` | images/operator-helm-controller/internal/reposync/synchronizer.go:64-109 | Along every run, with any write or fetch failing, every version owed an answer by a refresh that was reported recorded stays marked or pending until the registry answers for its tag or stops offering it |
| `CatalogMarks.RecordedMeansMarked` | images/operator-helm-controller/internal/reposync/synchronizer.go:76-90 | A refresh of an oci repository is reported recorded only once every recorded version is outstanding |
| `CatalogMarks.OutstandingStays` | images/operator-helm-controller/internal/catalog/catalog.go:145-175 | No mark is cleared by a carried-over verdict: without an answer for the tag, or a listing without it, an outstanding version stays outstanding wherever the pass stops |
| `CatalogMarks.AwaitedIsPassed` | images/operator-helm-controller/internal/client/repository/oci.go:173-184 | A version that awaits an answer and gets none is reported unexamined, never carried over |
| `CatalogMarks.UnmigratedTwinClearsMark` | images/operator-helm-controller/internal/catalog/catalog.go:116-141 | Why a pass needs one object per chart: with a second object under the same chart label a mark is cleared by the other's verdict although the registry answered nothing |
| `CatalogMarks.UnansweredStaysIff` | images/operator-helm-controller/internal/client/repository/client.go:83-103 | Over a whole oci pass that did not get to its tag an outstanding version stays outstanding exactly if the recorded verdicts the pass takes over leave the tag to be examined, whatever objects there are |
| `CatalogSync.SyncKeepsNames` | images/operator-helm-controller/internal/catalog/catalog.go:177-318 | A synchronization gives no chart a second object, wherever it stops |
| `CatalogSync.KnownIsItsOwn` | images/operator-helm-controller/internal/catalog/catalog.go:114-141 | With one object per chart the known verdicts of a chart are those of its own object |
| `CatalogRetention.ReferencedVersionsStay` | images/operator-helm-controller/internal/catalog/catalog.go:177-277 | Over any run, whatever fails, a version a consumer references at every pass stays recorded in the labelled object of its chart as long as no other chart the repository offers derives the same object name, and its media type stays too unless the repository gives it a registry reference |
| `CatalogRetention.PartialReadDeletesNothing` | images/operator-helm-controller/internal/catalog/catalog.go:235-240 | A pass that could not read the whole repository deletes no object |
| `CatalogRetention.PrunedExactly` | images/operator-helm-controller/internal/catalog/catalog.go:242-274 | A complete pruning deletes exactly the objects whose chart is neither offered nor in use; one without a chart label counts as not in use |
| `CatalogRetention.ChartConsumers` | images/operator-helm-controller/internal/adapter/catalogs.go:89-111 | A version is in use exactly when some release names it in its spec or applied it last from this very pair |
| `CatalogStore.Synchronize` | images/operator-helm-controller/internal/reposync/synchronizer.go:64-109 | Mark, read what is known, fetch, reconcile, in that order: the method ends as the specified synchronization does |
| `CatalogStore.MarkForReexamination` | images/operator-helm-controller/internal/catalog/catalog.go:143-175 | The loop over the objects marks every verdict not already awaited, patching only what changed |
| `CatalogStore.KnownCharts` | images/operator-helm-controller/internal/catalog/catalog.go:114-141 | The loops collect the recorded verdicts chart by chart, the object listed last counting |
| `CatalogStore.ReconcileAll` | images/operator-helm-controller/internal/catalog/catalog.go:182-233 | The loop over the fetched charts, with what it reports as desired, incomplete and skipped |
| `CatalogStore.EnsureObject` | images/operator-helm-controller/internal/catalog/catalog.go:279-345 | An object is found, relabelled or created; one that appeared meanwhile loses the pass |
| `CatalogStore.PruneAll` | images/operator-helm-controller/internal/catalog/catalog.go:242-276 | The pruning loop against the same listing |
| `CatalogStore.RecordAbsence` | images/operator-helm-controller/internal/catalog/catalog.go:358-371 | A referenced chart that is no longer offered gets the merge of an empty list |
| `CatalogMigrationRuns.MigrationLosesNothing` | images/operator-helm-controller/internal/catalog/catalog.go:373-509 | Object by object: what it recorded, mark and all, ends under its chart's current name exactly if it survives, always does if no object of another chart carries that name or is moved before it, and a verdict already recorded under the name stays |
| `CatalogMigrationRuns.VersionSurvivesIff` | images/operator-helm-controller/internal/catalog/catalog.go:373-509 | After a migration that succeeds a version, or the mark on it, is under its chart's current name exactly if some listed object recorded it that was not moved before another chart's object of that name, or that had the name already |
| `CatalogMigrationRuns.NoLegacyLeft` | images/operator-helm-controller/internal/catalog/catalog.go:391-417 | After a migration that succeeds every labelled object carries the name derived from its label, whatever the names were before |
| `CatalogMigrationRepetition.RepetitionIff` | images/operator-helm-controller/internal/catalog/catalog.go:391-419 | Exactly when a migration can be repeated: for given names and labels, every catalog ends as an undisturbed run leaves it, wherever and however often runs stopped before, even at a write reported failed that landed, if and only if no object still to be moved carries the current name of a chart moved before it |
| `CatalogMigrationRuns.RepeatedRunReachesTheSame` | images/operator-helm-controller/internal/catalog/catalog.go:391-419 | Under that condition a run stopped after any write and repeated reaches the catalog that moving the objects one by one gives, and so does a run that is not stopped |
| `CatalogMigrationRuns.CurrentNameSurvivesIff` | images/operator-helm-controller/internal/catalog/catalog.go:391-417 | A chart has its object after the migration exactly if it had one that was not moved before another chart's object of that name, and the object records exactly the versions and marks that survive |
| `CatalogMigrationRuns.LaterClaimLosesChart` | images/operator-helm-controller/internal/catalog/catalog.go:391-417 | A concrete catalog where it does not: the chart's versions are gone |
| `CatalogMigrationRuns.ReclaimedNameLosesVersion` | images/operator-helm-controller/internal/catalog/catalog.go:391-417 | A concrete catalog where the chart has its object back but a version is gone |
| `CatalogMigrationRuns.LaterClaimBreaksRepetition` | images/operator-helm-controller/internal/catalog/catalog.go:391-419 | A concrete catalog outside it: a run stopped after its first write and repeated never ends where an undisturbed one does |
| `CatalogMigrationRuns.NothingToMove` | images/operator-helm-controller/internal/catalog/catalog.go:68-70 | With one object per chart another run changes nothing, so one pass settles a repository for good |
| `CatalogMigration.JoinedMeaning` | images/operator-helm-controller/internal/catalog/catalog.go:424-466 | Joining two objects keeps every version of both, the destination's verdicts, every mark, and an icon |
| `CatalogMigration.JoinedTwice` | images/operator-helm-controller/internal/catalog/catalog.go:449-453 | Joining once more changes nothing |
| `CatalogMigration.JoinInto` | images/operator-helm-controller/internal/catalog/catalog.go:424-466 | The loops over held versions, marks and missing ones compute the join and say whether anything changes |
| `CatalogMigration.Renamer.MigrateNames` | images/operator-helm-controller/internal/catalog/catalog.go:378-422 | The method is the specified run; once it succeeds it remembers and does nothing more |
| `ReleaseInternalState.ReadyIff` | images/operator-helm-controller/internal/internalobj/state.go:86-146 | An internal object counts as ready exactly when it says so of its current generation, no error rule fires, no terminal message stands, and it is not at work unless it gave up |
| `ReleaseInternalState.StalledIff` | images/operator-helm-controller/internal/internalobj/state.go:91-133 | It counts as stalled exactly when it gave up or a terminal message stands |
| `ReleaseInternalState.ReadyNotStalled` | images/operator-helm-controller/internal/internalobj/state.go:86-146 | It is never both, if it never calls itself both |
| `ReleaseInternalState.DeployedByDigestIff` | images/operator-helm-controller/internal/internalobj/release.go:285-315 | In whichever of its two forms a digest was recorded, the artifact is the deployed one exactly when its revision carries the same digest |
| `ReleaseRuns.DecisionConsistent` | images/operator-helm-controller/internal/reconcile/release/evaluate.go:198-253 | No decision sets a condition it removes, removes exactly the abnormal ones it does not raise, never raises both, and hands no error to the queue when it leaves the release stalled |
| `ReleaseRuns.NeverBothAfterAPass` | images/operator-helm-controller/internal/reconcile/release/evaluate.go:198-205 | After every pass the release is not both stalled and reconciling, whatever it was before |
| `ReleaseRuns.BothWhileAnnouncedIff` | images/operator-helm-controller/internal/reconcile/release/reconciler.go:609-640 | Between two passes both stand exactly when work is announced on a release that is stalled |
| `ReleaseRuns.ObservedOnlyWhenSettled` | images/operator-helm-controller/internal/reconcile/release/evaluate.go:182-196 | The observed generation never goes back and moves only on a settled verdict, to the generation that was settled |
| `ReleaseRuns.ObservedNeverDecreases` | images/operator-helm-controller/internal/reconcile/release/evaluate.go:182-196 | Nor does it along any run |
| `ReleaseRuns.GetConditionTypesForUpdate` | api/v1alpha1/helm_application.go:112-132 | The method appending to the list computes the specified condition set; api/v1alpha1/helm_cluster_addon.go:85-105 is the addon's copy |
| `ReleaseLifecycle.InstalledForever` | api/v1alpha1/helm_application.go:112-117 | Installed, once True with a last-applied chart recorded, never changes again along any run, whatever becomes of the spec |
| `ReleaseLifecycle.NoneGetsStuck` | api/v1alpha1/helm_application.go:119-150 | After any run from a new release, an Installed, UpdateInstalled or ConfigurationApplied condition that is not True is in the next pass's condition set |
| `ReleaseLifecycle.ApplyChartIff` | images/operator-helm-controller/internal/reconcile/release/evaluate.go:334-336 | The last-applied chart advances exactly when the source reports Ready at its current generation with no error rule firing, so does the release, the latest snapshot is deployed and matches the artifact, and the record differs |
| `ReleaseLifecycle.AppliedMeansReady` | images/operator-helm-controller/internal/reconcile/release/evaluate.go:284-295 | The decision that advances the record also writes Ready=True with reason Success |
| `ReleaseLifecycle.ReadyReportedIff` | images/operator-helm-controller/internal/reconcile/release/evaluate.go:278-295 | A pass that reaches the chart reports Ready=True exactly when source and release are what the spec asks for |
| `ReleaseLifecycle.ShippedReadyReportedIff` | images/operator-helm-controller/internal/reconcile/release/evaluate.go:278-295 | The same under the shipped terminal rules, with no condition on rules left |
| `ReleaseReconciler.RunEvaluate` | images/operator-helm-controller/internal/reconcile/release/evaluate.go:167-253 | The decision built step by step is the specified one |
| `ReleaseReconciler.Draft.ChartReached` | images/operator-helm-controller/internal/reconcile/release/evaluate.go:278-350 | The part for a pass that reached the chart, with its loop over the condition types |
| `ReleaseReconciler.PickVerdict` | images/operator-helm-controller/internal/reconcile/release/evaluate.go:380-398 | The first verdict that is no success, or the last one there is |
| `ReleaseReconciler.PickRetryErr` | images/operator-helm-controller/internal/reconcile/release/evaluate.go:549-563 | The first error worth another attempt |
| `ReleaseReconciler.Release.Write` | images/operator-helm-controller/internal/reconcile/release/reconciler.go:417-453 | Writing a decision merges its conditions, removes the others, and sets what it asks for |
| `Naming.NameIsValid` | api/naming/naming.go:108-171 | For every repository and chart name the object name is a lower-case DNS subdomain (section 2.1 of RFC 1123) without a double dash, of at most 60 characters |
| `Naming.SharedNameIsACollision` | api/naming/naming.go:108-110 | Two charts of a repository share a name only if the hashes of their distinct texts collide |
| `Naming.NamesApart` | api/naming/naming.go:108-110 | The object names of any set of charts of a repository are apart if their hashes are |
| `Naming.CollapsedShape` | api/naming/naming.go:141-152 | Collapsing leaves no double dash and keeps the ends and the neighbours of every dot |
| `Naming.ReplaceStrayDots` | api/naming/naming.go:131-136 | The loop over the byte buffer turns exactly the stray dots into dashes, in place |
| `Naming.CollapseDashes` | api/naming/naming.go:141-152 | The loop computes the collapsed text |
| `Naming.Sanitize` | api/naming/naming.go:158-171 | The loop replaces every other character by a dash |
| `Naming.ChartObjectName` | api/naming/naming.go:108-139 | The method computes the specified name, at every truncation point |
| `RewriterNames.RenameRestoredIff` | images/kube-api-rewriter/pkg/rewriter/prefixed_name_rewriter.go:161-215 | For well-formed rules, renaming what was restored gives name and value back exactly when the name does not carry the preserved prefix |
| `RewriterNames.RestoreRenamedIff` | images/kube-api-rewriter/pkg/rewriter/prefixed_name_rewriter.go:161-215 | Restoring what was renamed gives them back exactly for the names a client is shown |
| `RewriterNames.RestoredIsVisible` | images/kube-api-rewriter/pkg/rewriter/prefixed_name_rewriter.go:188-215 | What a client is shown is always something it can work with |
| `RewriterNames.UndoneWhenCovered` | images/kube-api-rewriter/pkg/rewriter/prefixed_name_rewriter.go:167-185 | A name some rule covers is rewritten to another that only the reverse rules cover, and they undo it |
| `RewriterNames.IndexRules` | images/kube-api-rewriter/pkg/rewriter/prefixed_name_rewriter.go:255-266 | The loop indexes the rules, the last one for a key winning |
| `RewriterNames.IndexRulesReverse` | images/kube-api-rewriter/pkg/rewriter/prefixed_name_rewriter.go:268-279 | The same for the reverse index |
| `RewriterMaps.NeverMergesIff` | images/kube-api-rewriter/pkg/rewriter/prefixed_name_rewriter.go:135-145 | Restoring never merges two labels, whatever the map, exactly when rules bound to values keep the name they are bound to |
| `RewriterMaps.RestoredMapRenames` | images/kube-api-rewriter/pkg/rewriter/prefixed_name_rewriter.go:135-145 | Renaming a restored map gives the map, an original and its renamed twin side by side included |
| `RewriterMaps.RenamedMapRestores` | images/kube-api-rewriter/pkg/rewriter/prefixed_name_rewriter.go:135-145 | Restoring a renamed map gives the map a client sent |
| `RewriterMaps.VisibleNamesDoNotMerge` | images/kube-api-rewriter/pkg/rewriter/prefixed_name_rewriter.go:135-145 | Without rules bound to values every map of names a client is shown can be renamed without loss |
| `RewriterMaps.NameListsRoundTrip` | images/kube-api-rewriter/pkg/rewriter/prefixed_name_rewriter.go:147-158 | Lists of names come back in both directions |
| `RewriterMaps.RewriteMap` | images/kube-api-rewriter/pkg/rewriter/prefixed_name_rewriter.go:135-145 | The loop, in any order of the entries, computes the image of the map when nothing merges, and otherwise holds only images of entries |
| `RewriterMaps.RewriteSlice` | images/kube-api-rewriter/pkg/rewriter/prefixed_name_rewriter.go:147-158 | The loop rewrites each name of a list |
| `RewriterPointer.DecodeEncoded` | images/kube-api-rewriter/pkg/rewriter/metadata.go:130-144 | Decoding an encoded name gives the name, whatever it is (sections 3 and 4 of RFC 6901) |
| `RewriterPointer.EncodeDecodedIff` | images/kube-api-rewriter/pkg/rewriter/metadata.go:130-144 | Encoding a decoded token gives it back exactly when it is a valid reference token |
| `RewriterPatchProof.PatchCommutes` | images/kube-api-rewriter/pkg/rewriter/metadata.go:50-103 | A renamed JSON Patch (section 4 of RFC 6902) does to the renamed labels and annotations what the patch does to them, and fails there exactly when it fails here; moves and copies are those that can be renamed at all |
| `RewriterPatchProof.TransferCommutesIff` | images/kube-api-rewriter/pkg/rewriter/metadata.go:59-102 | Exactly which moves and copies can be renamed: of a single key iff its path is not renamed, unless a text would go where a map belongs; of a whole map always onto itself, and onto the other iff the two rename every visible name alike |
| `RewriterPatchProof.AllCommuteIff` | images/kube-api-rewriter/pkg/rewriter/metadata.go:79-96 | Every patch operation commutes with renaming exactly if no rule is bound to a value, because the path of a single key is renamed by its name alone |
| `RewriterPatchProof.PathRenamed` | images/kube-api-rewriter/pkg/rewriter/metadata.go:77-93 | The renamed path points at the renamed key |
| `RewriterPatchProof.MoveFromIsNotRenamed` | images/kube-api-rewriter/pkg/rewriter/metadata.go:59-102 | The from of a move or copy is not renamed: taking any label or annotation with another name on the server works for the client and fails on the server |
| `RewriterRules.ApiVersionRoundTripIff` | images/kube-api-rewriter/pkg/rewriter/rules.go:259-287 | A renamed API version is restored exactly unless its group was a renamed one to begin with, and the other way round |
| `RewriterRules.KindRoundTrip` | images/kube-api-rewriter/pkg/rewriter/rules.go:247-259 | A renamed kind is always restored; a restored one is renamed back exactly if it carried the prefix |
| `RewriterRules.GroupRewritten` | images/kube-api-rewriter/pkg/rewriter/rules.go:259-287 | What becomes of the group of an API version |
| `RewriterRules.IndexGroups` | images/kube-api-rewriter/pkg/rewriter/rules.go:70-74 | The loop indexes the rules both ways by the group each of them names, one pair a rule |
| `RewriterRules.IndexedLookups` | images/kube-api-rewriter/pkg/rewriter/rules.go:262-287 | Under well-formed rules renaming and restoring a group, and asking whether it is a renamed one, read those two indexes |
| `RewriterRules.RenameByIndex` | images/kube-api-rewriter/pkg/rewriter/rules.go:275-287 | Looking the group up in the index built from the rules, and keeping the version, renames the API version |
| `RewriterRules.RestoreByIndex` | images/kube-api-rewriter/pkg/rewriter/rules.go:261-273 | The same for restoring, in the reverse index |
| `RewriterRules.MapIndexer.AddPair` | images/kube-api-rewriter/pkg/rewriter/indexer/map_indexer.go:31-34 | Both directions are recorded |
| `RewriterShipped.ShippedRulesOk` | images/kube-api-rewriter/pkg/operatornelm/operatornelm_rules.go:27-160 | The shipped rules satisfy everything the round trips ask of rules |
| `RewriterRoundTrip.PayloadRoundTrip` | images/kube-api-rewriter/pkg/rewriter/rule_rewriter.go:229-321 | Restoring a renamed object gives it back and renaming a restored one does, for every object whose kind has a rule and, on either side, no rewriter of its own: API version, kind, managed fields, owner references, finalizers, labels, annotations and kind references together |
| `RewriterRoundTrip.ShippedTakesTheCommonPath` | images/kube-api-rewriter/pkg/rewriter/rule_rewriter.go:240-302 | Under the shipped rules no kind with a rule has a rewriter of its own, under its own name or the renamed one |
| `RewriterRoundTrip.ListRoundTrip` | images/kube-api-rewriter/pkg/rewriter/resource.go:24-80 | The same for lists with all their items |
| `RewriterRoundTrip.ItemRoundTrip` | images/kube-api-rewriter/pkg/rewriter/resource.go:81-162 | The same for one item, whether or not its kind has a rule |
| `RewriterRoundTrip.ItemIsEdits` | images/kube-api-rewriter/pkg/rewriter/resource.go:81-162 | Rewriting an item comes to edits at places apart from each other |
| `RewriterFields.GVKUndone` | images/kube-api-rewriter/pkg/rewriter/gvk.go:34-69 | A reference with kind and group comes back |
| `RewriterFields.KindRefUndone` | images/kube-api-rewriter/pkg/rewriter/source_ref.go:27-60 | So does a reference to a kind, with or without an API version |
| `RewriterFields.MapUndone` | images/kube-api-rewriter/pkg/rewriter/map.go:27-39 | So does a map of texts |
| `RewriterFields.ListUndone` | images/kube-api-rewriter/pkg/rewriter/transformers.go:50-62 | So does a list of texts |
| `RewriterFields.ManagedUndone` | images/kube-api-rewriter/pkg/rewriter/resource.go:139-162 | So do managed fields |
| `RewriterObjects.RewriteSpecKindRefsLoop` | images/kube-api-rewriter/pkg/rewriter/source_ref.go:65-91 | The loop over the reference paths, replacing the object each time, rewrites each reference |
| `RewriterJson.EditsUndone` | images/kube-api-rewriter/pkg/rewriter/transformers.go:27-47 | Edits at places apart from each other are undone together |
| `RewriterJson.RewriteItems` | images/kube-api-rewriter/pkg/rewriter/list.go:75-116 | The loop over an array replaces each item |
| `RewriterExcludes.ImpliedExcludesIff` | images/kube-api-rewriter/pkg/rewriter/rules.go:58-69 | The implied excludes hide exactly the objects whose group and kind have a rule |
| `RewriterExcludes.SentObjectReturns` | images/kube-api-rewriter/pkg/rewriter/rule_rewriter.go:229-387 | Renamed objects are never hidden: an object a client sends comes back to it whole |
| `RewriterExcludes.SentListReturns` | images/kube-api-rewriter/pkg/rewriter/rule_rewriter.go:229-387 | So does a list, with no item filtered out |
| `RewriterExcludes.Match` | images/kube-api-rewriter/pkg/rewriter/rules.go:350-393 | The loops over groups, kinds, labels and names decide whether all conditions of a rule hold |
| `RewriterExcludes.KeepItems` | images/kube-api-rewriter/pkg/rewriter/rule_rewriter.go:375-386 | The loop keeps exactly the items no rule excludes, in order |
| `RewriterExcludes.ImplyExcludes` | images/kube-api-rewriter/pkg/rewriter/rules.go:58-69 | The loops build one exclude for each group, for exactly its kinds and list kinds |
| `RewriterEndpoint.ParsePrintIff` | images/kube-api-rewriter/pkg/rewriter/api_endpoint.go:190-298 | An /apis path survives being taken apart and printed exactly when it has at most six segments or names a namespace |
| `RewriterEndpoint.PathSurvivesIff` | images/kube-api-rewriter/pkg/rewriter/api_endpoint.go:88-127 | The same for paths as texts |
| `RewriterEndpoint.RewrittenEndpointReparses` | images/kube-api-rewriter/pkg/rewriter/rule_rewriter.go:44-149 | A rewritten endpoint printed and taken apart again is the same endpoint, and only group and resource, or the definition's name, have changed in the path |
| `RewriterEndpoint.ShippedEndpointRulesOk` | images/kube-api-rewriter/pkg/operatornelm/operatornelm_rules.go:27-160 | The shipped rules satisfy what the rewriting of paths asks of rules |
| `RewriterEndpoint.PathJoinsSegments` | images/kube-api-rewriter/pkg/rewriter/api_endpoint.go:267-298 | Printing joins the segments |
| `RewriterEndpoint.ParseAPIsEndpoint` | images/kube-api-rewriter/pkg/rewriter/api_endpoint.go:190-260 | Shifting items off the path and setting one part after the other computes the specified endpoint |
| `RewriterEndpoint.PathItems.Shift` | images/kube-api-rewriter/pkg/rewriter/api_endpoint.go:300-313 | Shift takes the first item off and says whether it was the last |
| `RewriterEndpoint.PrintPath` | images/kube-api-rewriter/pkg/rewriter/api_endpoint.go:267-298 | The loop over the parts prints the non-empty ones |

## Left out

- HTTP, TLS, retries and timeouts, watches, metrics, logging, generated clients: plumbing without a hard invariant.
- OwnedBy of the claims: a single read.
- Error texts: errors are kept apart as far as the code branches on them.
- YAML, semver, gjson and sjson themselves: an item decoder, a version parser and a JSON datatype with fields and paths stand for them; values of a wrong JSON type where a text or an array is expected are read as absent rather than by their raw text.
- SHA-256: any function; its fixed-length hexadecimal form is a precondition of NameIsValid.
- Sorting: the catalog list is sorted by insertion, which a total order makes the only result; the list a pass reports is one of the orders an unstable sort may give.
- Concurrency of probes: each writes only its own place and a denied one fails the pass, so they are run one after the other.
- Owner references and the other labels of catalog objects: a patch that changes only them changes nothing in the model.
- Objects of other repositories, and catalog objects other clients write during a pass: a conflict is a failed write.
- Messages cut at 256 bytes: the message of an answer is the one that is recorded.
- A listed tag that always answers 404: outside EveryTagIsExamined, which asks that no offered tag is gone.
- Duplicate versions within one catalog object: outside the migration results; a helm index that lists a version twice is covered by the retention results.
- The inventory of a release as a list of texts: parsing and sorting it is easy accounting.
- LastTransitionTime and the time of a forced reconcile: clocks.
- Status writes during the deletion of a release: another path, which advances the observed generation by itself.
- Patches that are merge patches, and JSON patch paths for finalizers and owner references: the first turn a null into a text, the others carry no key.
- VisibleOp: leaves out paths to the whole object or its whole metadata, and moves and copies between one of the two maps and another place, because the model holds nothing but the two maps.
- PatchCommutes: asks for rules without values, because AllCommuteIff shows that a rule bound to a value breaks it.
- Kinds with rewriters of their own (CRDs, workloads, webhooks, RBAC, discovery, admission reviews): what they make of a payload is any function; PayloadRoundTrip and ListRoundTrip ask that neither the kind nor the renamed kind is one of them.
- Query strings of endpoints: label and field selectors, watch.
- Endpoints under /api: they are printed as they came.
- RewriteTextMap: leaves the map alone where two names would merge, because the code's result then depends on the order of a Go map; the round trips exclude that case and NeverMergesIff says when it arises.
