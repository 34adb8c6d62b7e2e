# Repair protocols, merging and plan reconciliation

This project models the parts of desloppify that decide what may happen next: the repair-cycle scheduler that hands at
most one reviewed repair to a host, the protocol that publishes repairs to GitHub once, the merge of a scan into the stored
work items, the reconciliation of a plan with them, and five self-contained algorithms. It proves what those parts promise
over every input, every run or every reachable state. `dafny verify dfyconfig.toml` checks the whole project.

## How it is laid out

- `CycleRecords`, `RepairCycle`, `CycleProtocol`, `CycleDriver`, `CycleRuns`, `RepairAuthority`: the repair cycle. The saved
  file, the class with its operations, the protocol as a step relation with crashes, the command as methods that save where
  the code saves, safety over whole histories, and authorization. Each command of the driver records the protocol steps it
  takes and is proved to take only allowed ones, so what holds of every history holds of every sequence of commands.
- `RepairQueueRecords`, `RepairQueue`, `RepairQueueRuns`, `RepairQueueLinks`, `RepairQueueSync`: publication. Records and keys,
  the locked transactions, whole runs of concurrent processes, where linked numbers come from, and the sync command as a
  method that lets others act before each of its steps.
- `WorkItems`, `MergeIssues`, `MergeLaws`, `MergeTwice`, `ScanKeepsRecords`: the scan merge, its laws, and merging twice.
- `PlanReferences`, `ScanReconcile`, `AutoCluster`: plan references after a scan, and cluster repair.
- `RepairBrief`, `BriefBuild`, `BriefWording`, `CodeSpan`: the published brief, its building from raw fields, and its headings.
- `Sorting`, `Noise`, `StreamUsage`, `StepParser`, `CommentStripper`: the other algorithms.
- `Wrappers`, `Sets`, `Text`: options and results, finite sets, and the string operations the text modules share.

## What the model takes as given

- A block under the state lock is one step, and only one cycle command runs at a time. Attempt IDs are fresh. A host outcome
  reported as parked launched nothing.
- An alarm may ring during any external call of an observation and at its end. A crash may come between any two steps.
- A search returns issues that exist, perhaps not all; a create may land and still be reported as uncertain, or fail
  silently; a view answers for the number it was asked for. Outsiders may open or rewrite issues.
- A work item is stored under its own ID, so the key of a map is the ID its routing reads.
- SHA-256 is injective: a digest is the labelled input it was computed from. Members of a saved mapping are a fixed set of
  keys. Costs are exact numbers. Times are integers, the wall clock in local seconds and deadlines in absolute ones.
- What comes from the host, GitHub, git, the clock and the operator are inputs, unconstrained unless said above.

## Where the code and what is said of it differ

- Merging the same scan twice can reopen an item when an ID-prefix ignore pattern is in use: the first merge ends the
  suppression of an absent item whose fingerprint had suppressed another. `MergeTwice.SecondMergeReopens` gives the input and
  `MergeTwice.MergeTwiceLaw` the exact condition, on what the first merge is given, for the second to change nothing.
- One attempt per window needs a wall clock that does not go back; `CycleRuns.ClockSetBackRepeatsAWindow` shows an hour set
  back, and `CycleRuns.OneAttemptPerWindow` gives the exact condition.
- A saved checkout path that ends in white space is read back without it: `CycleRecords.PaddedRepoRootIsLost` is the input,
  `CycleRecords.LosslessPersistence` the exact condition, and `CycleRecords.ReadsBack` says what is read instead. The whole-run
  claims hold of such attempts too.
- The documentation of the ghost-reference repair (desloppify/engine/_plan/auto_cluster.py:86-90) says that an issue missing
  from the cluster its override names is added to it. The code clears or redirects the override:
  `AutoCluster.MissingMemberIsNotAdded` is the input, and `AutoCluster.OverrideIsKept` says exactly when an override is kept.
- A step that is done, or has an empty title, is written but not read back; `StepParser.RoundTripsExactly` is exact.
- Superseding an item without a successor leaves a reference to it exactly when the queue or a cluster named it twice:
  `ScanReconcile.SecondCopySurvives` is an input, `ScanReconcile.SupersededRefers` the exact statement.

## Model

| member | source | states |
|---|---|---|
| CycleRecords.LosslessPersistence | desloppify/engine/repair_cycle.py:265-312 | decoding what was encoded gives the state back exactly when it is storable: trimmed non-empty texts, non-negative amounts, a dispatch that belongs to the current lease, history entries with an attempt ID |
| CycleRecords.FromMappingIs | desloppify/engine/repair_cycle.py:265-294 | the decoder accepts a mapping as a state exactly when every member decodes to that state's member |
| CycleRecords.DecodesToStorable | desloppify/engine/repair_cycle.py:460-563 | member by member, the encoded state decodes to itself exactly when it is storable |
| CycleRecords.DispatchRoundTrip | desloppify/engine/repair_cycle.py:170-225 | a dispatch record survives encoding exactly when its texts are clean and its phase is one the decoder knows |
| CycleRecords.LeaseRoundTrip | desloppify/engine/repair_cycle.py:85-158 | a lease survives encoding exactly when its ID is clean, its call limit and its cost cap positive |
| CycleRecords.ReadsBack | desloppify/engine/repair_cycle.py:265-312 | any state reads back with its checkout path stripped and nothing else changed, exactly when what that leaves is storable |
| CycleRecords.PaddedRepoRootIsLost | desloppify/engine/repair_cycle.py:481-488 | a recorded checkout path that ends in a space does not survive, because the decoder strips it |
| RepairCycle.WindowStartIsTheGridPoint | desloppify/engine/repair_cycle.py:21-25 | the window start is the one grid point whose window holds the minute, and no other is |
| RepairCycle.WindowStartMonotone | desloppify/engine/repair_cycle.py:21-25 | window starts are monotone in time |
| RepairCycle.CycleState.Begin | desloppify/engine/repair_cycle.py:314-347 | begin is refused exactly when the current attempt may not be replaced; otherwise everything starts over but the history, which gains the attempt's archive |
| RepairCycle.CycleState.Admit | desloppify/engine/repair_cycle.py:349-360 | admission reserves the whole remaining budget, or nothing when either part is used up |
| RepairCycle.CycleState.Settle | desloppify/engine/repair_cycle.py:362-368 | settling releases the admission and charges what was measured, or the admission when the cost was not |
| RepairCycle.CycleState.Fail | desloppify/engine/repair_cycle.py:381-386 | the first failure is retained; a later one changes only the park reason |
| RepairCycle.CycleState.Dispose | desloppify/engine/repair_cycle.py:402-421 | an operator disposes exactly a current attempt that awaits disposition, with the confirmation its phase needs |
| RepairCycle.OneAdmissionAtATime | desloppify/engine/repair_cycle.py:349-368 | after an admission no second one is possible before the first is settled |
| RepairCycle.SettleReleasesAdmission | desloppify/engine/repair_cycle.py:349-368 | settling an admission restores the reservation it found and charges only the measurement |
| RepairCycle.ArchiveIsFaithful | desloppify/engine/repair_cycle.py:333-347 | a history entry names the lease, says disposed or settled exactly when the attempt was, and keeps the dispatch |
| RepairCycle.ArchiveIsValid | desloppify/engine/repair_cycle.py:527-542 | what begin archives passes the decoder's history check |
| RepairCycle.BeginReplacesOnlyFinishedAttempts | desloppify/engine/repair_cycle.py:423-457 | an attempt is replaced only in another window, and only when it was disposed or nothing of it failed, is reported active or holds a reservation |
| CycleProtocol.InvStep | desloppify/app/commands/repair_cycle.py:111-189 | every step of the protocol, a crash included, keeps the invariant: storable state, budget accounting, archived past, one launch |
| CycleProtocol.ReachableInv | desloppify/app/commands/repair_cycle.py:910-914 | the invariant holds in every state any history reaches from the empty state |
| CycleProtocol.WrittenStateDecodes | desloppify/app/commands/repair_cycle.py:910-914 | whatever a step writes, a padded checkout path included, decodes, and to the state the later steps go on from |
| CycleProtocol.SavedStateDecodes | desloppify/engine/repair_cycle.py:265-312 | in every reachable state the saved state, as it reads back, decodes to itself |
| CycleProtocol.FreshIsUnspent | desloppify/engine/repair_cycle.py:314-331 | a lease that was just begun has spent and reserved nothing |
| CycleDriver.Driver.CrashNow | desloppify/app/commands/repair_cycle.py:910-914 | a crash keeps the file and the host's memory and loses the working state |
| CycleDriver.Driver.Persist | desloppify/app/commands/repair_cycle.py:910-914 | the save writes exactly the staged state, is a step the protocol allows, and leaves what that state reads back as |
| CycleDriver.Driver.AddReferences | desloppify/app/commands/repair_cycle.py:774-798 | references found by the lookup are added and none is removed |
| CycleDriver.Driver.Judge | desloppify/app/commands/repair_cycle.py:341-400 | pull requests read as closed and within the approval settle the dispatch; a changed path outside it fails the attempt |
| CycleDriver.Driver.CheckPullRequests | desloppify/app/commands/repair_cycle.py:341-381 | a dispatch becomes settled only when the recorded pull requests could be read |
| CycleDriver.Driver.ReplayDispatch | desloppify/app/commands/repair_cycle.py:747-771 | an attempt that has a dispatch record is only observed |
| CycleDriver.Driver.Observe | desloppify/app/commands/repair_cycle.py:290-338 | an observation, alarms included, launches nothing and ends in a saved state |
| CycleDriver.Driver.RefusedNewWork | desloppify/app/commands/repair_cycle.py:139-156 | new work is refused exactly when the attempt is unsettled or awaits disposition, or the configuration parks |
| CycleDriver.Driver.AuthorizedRequest | desloppify/app/commands/repair_cycle.py:644-680 | a request goes on exactly when the recheck passes in time; a refusal leaves the dispatch as it was |
| CycleDriver.Driver.Charge | desloppify/app/commands/repair_cycle.py:611-639 | the charge is the measured cost, or the whole admission when the run was stopped, unknown or unmeasured, and never fewer calls than were streamed |
| CycleDriver.Driver.SettleRun | desloppify/app/commands/repair_cycle.py:683-704 | any end but completion leaves a retained failure |
| CycleDriver.Driver.Handover | desloppify/app/commands/repair_cycle.py:592-610 | the intent with its reservation is saved, and only then the attempt is handed over, once |
| CycleDriver.Driver.RunHost | desloppify/app/commands/repair_cycle.py:611-641 | a parked outcome withdraws the intent and launched nothing; any other outcome returns |
| CycleDriver.Driver.MayLaunch | desloppify/app/commands/repair_cycle.py:599-614 | an attempt goes on to its launch exactly when the recheck passes, the worktrees could be listed and the budget allows it; a refusal leaves nothing but the reason |
| CycleDriver.Driver.DispatchHost | desloppify/app/commands/repair_cycle.py:579-641 | a recorded dispatch is replayed and hands nothing over; otherwise at most the current attempt is handed over |
| CycleDriver.Driver.BeginAndDispatch | desloppify/app/commands/repair_cycle.py:159-189 | a new attempt is handed over only after selection was granted and its lease was begun and saved |
| CycleDriver.Driver.DisposeAttempt | desloppify/app/commands/repair_cycle.py:874-886 | disposal succeeds exactly when it is allowed, is saved, and launches nothing |
| CycleDriver.Driver.ObserveAndGate | desloppify/app/commands/repair_cycle.py:111-156 | new work passes the gate only with everything settled, nothing awaiting disposition and a cost cap |
| CycleDriver.Driver.RunCycle | desloppify/app/commands/repair_cycle.py:111-136 | one run of the command is a history of protocol steps and hands over at most one, new, attempt |
| CycleRuns.EveryPrefixIsAHistory | desloppify/app/commands/repair_cycle.py:910-914 | a crash may cut any history short at any step |
| CycleRuns.AtMostOneLaunch | desloppify/app/commands/repair_cycle.py:579-641 | over every history with crashes, no attempt is handed to the host twice |
| CycleRuns.IntentIsDurableBeforeLaunch | desloppify/app/commands/repair_cycle.py:592-610 | when an attempt is handed over, its intent and the whole reservation were saved in the step before, and read back |
| CycleRuns.NeverLaunchedLater | desloppify/app/commands/repair_cycle.py:747-771 | an attempt whose run is over is never handed over again |
| CycleRuns.HostSeesEachAttemptOnce | desloppify/app/commands/repair_cycle.py:579-641 | the same of the driver's own record, for any sequence of its commands |
| CycleRuns.LaunchesExclude | desloppify/engine/repair_cycle.py:439-457 | a launch happens only when every attempt launched before was disposed by the operator or settled, and the history says so |
| CycleRuns.SettledOnlyOnEvidence | desloppify/app/commands/repair_cycle.py:341-369 | settled is reached only from returned, in a step that read every recorded pull request as closed and within the approval |
| CycleRuns.ReferencesNeverShrink | desloppify/engine/repair_cycle.py:227-240 | pull requests, issues and worktrees once recorded for an attempt stay recorded, in the state or its past |
| CycleRuns.ReservationIsTheOneAdmission | desloppify/engine/repair_cycle.py:349-368 | the reservation is the whole lease exactly while an intent is open, and nothing can be admitted then |
| CycleRuns.OverrunBlocksNewLeases | desloppify/engine/repair_cycle.py:370-394 | usage and reservation stay within the ceilings, unless usage was measured above them; then a retained failure blocks the next lease until disposition |
| CycleRuns.OneAttemptPerWindow | desloppify/engine/repair_cycle.py:450-457 | with one window length, windows of successive attempts strictly increase exactly when no attempt began before the current window |
| CycleRuns.NonDecreasingClockIsNeverBehind | desloppify/engine/repair_cycle.py:21-25 | a clock that never goes back meets that condition |
| CycleRuns.ClockSetBackRepeatsAWindow | desloppify/engine/repair_cycle.py:314-331 | a wall clock set back does not: three runs put two attempts in one window |
| RepairAuthority.AuthorizationIsStable | desloppify/app/commands/repair_cycle.py:433-531 | with nothing changed, the recheck passes exactly until the approval expires or the time left outgrows the approved runtime; without the clock going back, exactly until expiry, with a deadline within both lease and approval |
| RepairAuthority.ChangedApprovalStopsTheAttempt | desloppify/engine/repair_authority.py:75-107 | withdrawing, replacing or narrowing the approval makes every later recheck fail |
| RepairQueueRecords.NormalizeOnce | desloppify/engine/repair_queue.py:165-196 | normalizing migrates: what is written back reads as the same record under any later evidence |
| RepairQueueRecords.RecognizedForOneConcern | desloppify/engine/repair_queue.py:165-196 | a keyed record is recognized for one repository, route and identity |
| RepairQueueRecords.Classify | desloppify/engine/repair_queue.py:235-252 | a candidate carries the item's own hashes and the key of its route |
| RepairQueueRecords.MarkerLineIdentifies | desloppify/engine/repair_queue.py:344-359 | a marker line identifies key and lane |
| RepairQueue.StateFile.Reserve | desloppify/app/commands/repair_queue.py:484-506 | the locked half of create writes the pending record exactly when the candidate is unchanged, holds nothing, its key is claimed nowhere, no repair is pending, and the source is current; stale evidence loses its revalidation |
| RepairQueue.StateFile.RecheckLocked | desloppify/app/commands/repair_queue.py:344-360 | proceed only on current evidence; changed evidence is unvalidated, unreadable evidence kept |
| RepairQueue.StateFile.WriteLink | desloppify/app/commands/repair_queue.py:523-547 | the link replaces the lane's pending record exactly when the candidate, its source and the expected record are as they were |
| RepairQueue.StateFile.Recover | desloppify/app/commands/repair_queue.py:113-151 | exactly the repository's pending records that match the marker are cleared, and the count is how many they were |
| RepairQueue.DecisionsAreGrounded | desloppify/app/commands/repair_queue.py:168-219 | only the single hit with the candidate's own marker is adopted, only a number recorded under the key is read, and a create is proposed only with no record, no peer and no hit |
| RepairQueueRuns.ReservationNeedsNoAnchor | desloppify/app/commands/repair_queue.py:484-506 | a reservation requires that no item of the identity holds any record, and leaves one that does |
| RepairQueueRuns.AccountedStep | desloppify/app/commands/repair_queue.py:484-547 | each reservation of a key is accounted for by a recover call or by a record that forbids the next |
| RepairQueueRuns.TicketsStep | desloppify/app/commands/repair_queue.py:508-520 | each create call spends one reservation of its own |
| RepairQueueRuns.PublishOnce | desloppify/app/commands/repair_queue.py:484-520 | publish once: for any interleaving of syncs, crashes, uncertain creates, lagging searches, rescans and recovers, creates for a key are at most one more than the recover calls that cleared it |
| RepairQueueRuns.OneUnresolvedRepair | desloppify/app/commands/repair_queue.py:496-506 | no run leaves a repository with two pending small repairs |
| RepairQueueRuns.OneSmallRepairPerSync | desloppify/app/commands/repair_queue.py:230-266 | each sync creates at most one small repair, whatever runs beside it |
| RepairQueueLinks.LinksAreGrounded | desloppify/app/commands/repair_queue.py:412-481 | every issue number that a record recognized for a key carries was carried by a record recognized for it at the start, or a search returned that issue with the key's own marker line |
| RepairQueueLinks.ExaminedOrigin | desloppify/app/commands/repair_queue.py:168-219 | what a sync is about to link has such an origin |
| RepairQueueSync.World.ReserveLocked | desloppify/app/commands/repair_queue.py:484-506 | the locked half of create is one protocol step |
| RepairQueueSync.World.LinkLocked | desloppify/app/commands/repair_queue.py:523-547 | the locked half of linking is one protocol step |
| RepairQueueSync.World.RecoverLocked | desloppify/app/commands/repair_queue.py:113-129 | a recover call is one protocol step, and reports how many records it cleared |
| RepairQueueSync.World.CreateOnce | desloppify/app/commands/repair_queue.py:484-520 | create-once: reserve, call, search and link are protocol steps with others acting between them |
| RepairQueueSync.World.SourceIsCurrent | desloppify/app/commands/repair_queue.py:328-360 | a candidate whose source is not current under the lock is done with |
| RepairQueueSync.World.Reconcile | desloppify/app/commands/repair_queue.py:168-219 | one candidate's reconciliation is a sequence of protocol steps and says whether it is selectable |
| RepairQueueSync.World.Select | desloppify/app/commands/repair_queue.py:230-266 | selection ends with at most one create |
| RepairQueueSync.World.Sync | desloppify/app/commands/repair_queue.py:154-165 | a whole sync, whatever others do meanwhile, is a run of the protocol |
| RepairQueueSync.WorldPublishesOnce | desloppify/app/commands/repair_queue.py:154-165 | so publish-once and one-unresolved-repair hold of the commands as coded |
| MergeIssues.WorkState.Upsert | desloppify/engine/_state/merge_issues.py:244-362 | the loop inserts and updates exactly the scanned issues and counts added, reopened and ignored |
| MergeIssues.WorkState.SuppressionMetadata | desloppify/engine/_state/merge_issues.py:365-388 | the fingerprints are the configured ones and those of items suppressed under an ID pattern |
| MergeIssues.WorkState.FindSuspects | desloppify/engine/_state/merge_issues.py:28-65 | a detector is suspect exactly when it imports reviews or had open items, found none, and did not run or had three |
| MergeIssues.WorkState.VerifyDisappeared | desloppify/engine/_state/merge_issues.py:126-241 | each absent item gets the verdict of its status, language, detector, scope and file, and the counters count the verdicts |
| MergeIssues.WorkState.MergeScan | desloppify/engine/_state/merge.py:154-233 | the merge is the upsert followed by the verdicts under its suspect and confirmed detectors |
| MergeLaws.MergeStatusLaw | desloppify/engine/_state/merge_issues.py:126-362 | no item is deleted; only a reappearing resolved item is reopened and only an absent open one is resolved |
| MergeLaws.LastReportShows | desloppify/engine/_state/merge_issues.py:277-330 | after the upserts an item shows its last report in the scan, and is suppressed exactly by the pattern that matched it |
| MergeLaws.UserDispositionsStay | desloppify/engine/_state/merge_issues.py:149-156 | a merge never changes wontfix, deferred or triaged_out |
| MergeLaws.ImportOnlyUntouched | desloppify/engine/_state/merge_issues.py:47-51 | without force_resolve an absent item of an import-only detector is left exactly as it was |
| MergeTwice.MergeTwiceLaw | desloppify/engine/_state/merge.py:154-233 | merging the same scan again adds nothing, and reopens nothing and changes no status exactly when the fingerprints that last through the first merge still suppress what it suppressed, stated on the items, scan and options the first merge is given |
| MergeTwice.KnownAfterMerge | desloppify/engine/_state/merge_issues.py:365-388 | which fingerprints last: the configured ones, those of absent items whose suppression the first merge does not withdraw, and those of the reported items it suppresses |
| MergeTwice.MergeAgain | desloppify/engine/_state/merge.py:154-233 | the same condition on the state the first merge leaves: every resolved item the scan reports is exempt or still suppressed |
| MergeTwice.SettledWithoutExact | desloppify/engine/_state/merge_issues.py:244-362 | without ID-prefix ignore patterns that condition always holds |
| MergeTwice.SecondMergeReopens | desloppify/engine/_state/merge_issues.py:365-388 | with one it may not: an input whose second merge reopens an item |
| MergeTwice.SuspectAgain | desloppify/engine/_state/merge_issues.py:28-65 | a suspect detector is suspect again in the second merge |
| ScanKeepsRecords.UpsertIsARewrite | desloppify/engine/_state/merge_issues.py:71-102 | updating an item keeps its links and pending records while its identity stays, so a scan is a rewrite the publication protocol allows |
| ScanKeepsRecords.VerifyIsARewrite | desloppify/engine/_state/merge_issues.py:105-123 | judging absent items touches no record |
| PlanReferences.ReplaceKeepsOrder | desloppify/engine/_plan/scan_issue_reconcile.py:207-212 | renamed lists keep each ID at its first occurrence |
| PlanReferences.WithoutKeepsOrder | desloppify/engine/_plan/scan_issue_reconcile.py:284-305 | pruned lists keep the order of what is left |
| ScanReconcile.RemappedRefers | desloppify/engine/_plan/scan_issue_reconcile.py:206-226 | remapping renames the references and adds none |
| PlanReferences.RemoveLeaves | desloppify/engine/_plan/scan_issue_reconcile.py:137-141 | removing the first entry leaves the ID in the list exactly when the list named it twice |
| ScanReconcile.RemovedRefers | desloppify/engine/_plan/scan_issue_reconcile.py:137-150 | in any plan, removing an item leaves the references to the others, and to the item itself exactly when the queue or a cluster named it twice |
| ScanReconcile.SupersededRefers | desloppify/engine/_plan/scan_issue_reconcile.py:76-160 | in any plan, the references after superseding are the others, the successor in the item's place, and the item itself exactly when it has no successor and a list named it twice |
| ScanReconcile.SecondCopySurvives | desloppify/engine/_plan/scan_issue_reconcile.py:137-141 | with a duplicate in the queue the second copy survives |
| ScanReconcile.PrunedRefers | desloppify/engine/_plan/scan_issue_reconcile.py:272-322 | pruning removes exactly the references to superseded items |
| ScanReconcile.SuccessorIsTheSameConcern | desloppify/engine/_plan/scan_issue_reconcile.py:124-134 | a successor is a concern of the same identity and the same evidence |
| ScanReconcile.Reconciliation.RemapId | desloppify/engine/_plan/scan_issue_reconcile.py:206-226 | lists are renamed without duplicates; skip and override entries move unless the successor has one |
| ScanReconcile.Reconciliation.SupersedeId | desloppify/engine/_plan/scan_issue_reconcile.py:76-160 | one item is superseded or remapped, with its entry |
| ScanReconcile.Reconciliation.SupersedeChanged | desloppify/engine/_plan/scan_issue_reconcile.py:179-203 | each changed concern of the list is reopened and superseded in turn; ReconcileLaw says what that keeps |
| ScanReconcile.Reconciliation.SyncSkipped | desloppify/engine/_plan/scan_issue_reconcile.py:468-483 | open skipped items take the status of their skip kind, and nothing else changes |
| ScanReconcile.Reconciliation.SupersedeDead | desloppify/engine/_plan/scan_issue_reconcile.py:331-344 | each mentioned item that does not exist is superseded in turn |
| ScanReconcile.Reconciliation.SupersedeNonactionable | desloppify/engine/_plan/scan_issue_reconcile.py:365-379 | each referenced item that exists but is resolved is superseded in turn |
| ScanReconcile.ReconcileLaw | desloppify/engine/_plan/scan_issue_reconcile.py:486-537 | the passes in any order of the IDs, from any plan: every non-synthetic, non-empty reference left is to an item that is open, deferred or triaged_out, or to one that was superseded although a list named it twice; what was dropped has a superseded entry and a cause, what was added is the same concern, and where concerns share no identity what is left is exact |
| ScanReconcile.WithoutDuplicatesNothingDangles | desloppify/engine/_plan/scan_issue_reconcile.py:486-537 | in a plan whose lists name nothing twice, every such reference left is to an item that is open, deferred or triaged_out |
| ScanReconcile.Reconciliation.ReconcileReferences | desloppify/engine/_plan/scan_issue_reconcile.py:486-537 | the command establishes that for any plan, duplicates included, and changes nothing of the items but statuses |
| AutoCluster.OwnersAreMembers | desloppify/engine/_plan/auto_cluster.py:35-41 | the membership table names exactly the listed items |
| AutoCluster.OwnersAreCanonical | desloppify/engine/_plan/auto_cluster.py:35-41 | each under the last manual cluster that lists it, or else the first automatic one |
| AutoCluster.RepairedIsCanonical | desloppify/engine/_plan/auto_cluster.py:83-109 | after the repair an override names its item's owner, or no cluster if none lists the item, and every listed item has one |
| AutoCluster.OverrideIsKept | desloppify/engine/_plan/auto_cluster.py:83-109 | with any override that names a cluster, the repair keeps it exactly when that cluster owns the item: an item missing from the cluster is never added to it |
| AutoCluster.MissingMemberIsNotAdded | desloppify/engine/_plan/auto_cluster.py:86-90 | an override that names a cluster which does not list its item is cleared, and the cluster stays as it was |
| AutoCluster.RepairedTwice | desloppify/engine/_plan/auto_cluster.py:83-109 | repairing again changes nothing |
| AutoCluster.Plan.RepairGhostRefs | desloppify/engine/_plan/auto_cluster.py:83-109 | the three passes make exactly that repair, count each change, and report zero exactly when nothing changed |
| AutoCluster.Plan.Canonical | desloppify/engine/_plan/auto_cluster.py:35-41 | the loop builds the membership table |
| AutoCluster.Plan.SyncQueue | desloppify/engine/_plan/auto_cluster.py:183-213 | the queue becomes the synced queue, and zero changes are reported exactly when it was already |
| AutoCluster.QueueSyncLaw | desloppify/engine/_plan/auto_cluster.py:149-213 | survivors keep their order, each missing active member is appended once, every active member that is not skipped is there, and nothing evictable is |
| AutoCluster.QueueSyncTwice | desloppify/engine/_plan/auto_cluster.py:183-213 | a second sync changes nothing |
| Noise.CappedIsTop | desloppify/engine/_state/noise.py:85-126 | a capped list is the head of the detector's issues in priority order |
| Noise.RoundRobin | desloppify/engine/_state/noise.py:129-166 | the loop ends having surfaced min(budget, total), in rounds over the detectors by their first item, each from the head of its list |
| Noise.LevelIsFair | desloppify/engine/_state/noise.py:144-159 | two shares differ by more than one only when the smaller list is exhausted |
| Noise.Apply | desloppify/engine/_state/noise.py:175-198 | for each detector surfaced plus hidden is what came in, the surfaced are its first by priority, the number surfaced is exactly what the budgets allow, shares are fair, and the result is in display order |
| Sorting.SortOrdered | desloppify/engine/_state/noise.py:118-119 | sorting orders by the key |
| Sorting.SortIsStable | desloppify/engine/_state/noise.py:118-119 | elements with equal keys keep their order |
| StreamUsage.FedTwice | desloppify/app/commands/repair_cycle_host.py:126-130 | two feeds are one feed of the joined data |
| StreamUsage.ChunkingIsIrrelevant | desloppify/app/commands/repair_cycle_host.py:126-130 | however the output is cut, the calls, result and cost are those of the whole output fed at once |
| StreamUsage.CountsOfLines | desloppify/app/commands/repair_cycle_host.py:132-152 | calls are the distinct identified responses plus the unidentified ones, and the result is the last result event |
| StreamUsage.FeedNeverLowersCalls | desloppify/app/commands/repair_cycle_host.py:149-151 | the call count never decreases |
| StreamUsage.Stream.Feed | desloppify/app/commands/repair_cycle_host.py:126-130 | a feed counts the complete lines and keeps the last one pending |
| StreamUsage.Watch | desloppify/app/commands/repair_cycle_host.py:310-327 | watching stops at the first poll that finds the host exited, over its calls or out of time, for that reason; every earlier poll found it running, within its calls and in time; every chunk up to there was fed |
| StreamUsage.Follow | desloppify/app/commands/repair_cycle_host.py:290-307 | with the final read, the usage is that of the whole output |
| CodeSpan.CodeReadsBack | desloppify/engine/repair_brief.py:468-472 | a code span reads back as its text under section 6.1 of CommonMark 0.31.2 exactly when the text has no line ending and is not made of spaces alone |
| RepairBrief.SanitizedIsSane | desloppify/engine/repair_brief.py:413-432 | an accepted field is one trimmed, non-empty line of at most 1000 characters |
| RepairBrief.SanitizedReadsBack | desloppify/engine/repair_brief.py:468-472 | so every accepted field reads back from its code span |
| RepairBrief.RepairLinesAreInert | desloppify/engine/repair_brief.py:232-271 | no line of a repair layout breaks or is the provenance heading, whatever the fields say |
| RepairBrief.ProposalLinesAreInert | desloppify/engine/repair_brief.py:274-327 | the same of a proposal |
| RepairBrief.BlockOfLayout | desloppify/engine/repair_brief.py:384-399 | reading finds exactly the fields between the fences |
| RepairBrief.PublishedPairOfBody | desloppify/engine/repair_brief.py:384-402 | the body gives back exactly the evidence digest and the reviewed version, and for a proposal the digest alone |
| RepairBrief.Title | desloppify/engine/repair_brief.py:330-332 | a title has at most 120 characters |
| BriefBuild.BuiltIsPublishable | desloppify/engine/repair_brief.py:156-195 | whatever the raw fields hold, a brief that is built meets what the layouts ask: digests, and fields that are single trimmed lines |
| BriefBuild.PairOfBuilt | desloppify/engine/repair_brief.py:384-402 | so the body of every brief that is built gives back its candidate's evidence digest, and its reviewed version unless it is a proposal |
| BriefWording.WordedIsFixed | desloppify/engine/repair_brief.py:232-327 | the headings as they are, around any sentences, make a wording the layout laws apply to |
| StepParser.ParsedAreShaped | desloppify/engine/_plan/step_parser.py:90-132 | every step read is not done, with a trimmed one-line title, a detail of trimmed lines that are no reference lines, and comma-free references |
| StepParser.RoundTripsExactly | desloppify/engine/_plan/step_parser.py:90-140 | writing and reading gives a list back exactly when every step has that shape, a non-empty title and no empty reference list |
| StepParser.ReadWriteRead | desloppify/engine/_plan/step_parser.py:90-140 | what was read from any text, if no title is empty, is written and read again the same, except that an empty reference list comes back as none |
| StepParser.ParseStepsFile | desloppify/engine/_plan/step_parser.py:90-132 | the loop reads exactly the steps of the text |
| StepParser.FormatSteps | desloppify/engine/_plan/step_parser.py:135-140 | the loop writes exactly the lines of the steps |
| StepParser.StepsAreHeaders | desloppify/engine/_plan/step_parser.py:114-122 | one step is read for each header line |
| CommentStripper.StripCStyleComments | desloppify/base/text_utils.py:69-102 | the loop computes the stripped text |
| CommentStripper.StrippedIsCommentless | desloppify/base/text_utils.py:69-102 | no comment opener is left outside a literal |
| CommentStripper.FixedPoints | desloppify/base/text_utils.py:69-102 | a text is left alone exactly when it has no comment outside its literals |
| CommentStripper.Idempotent | desloppify/base/text_utils.py:69-102 | stripping twice is stripping once |
| CommentStripper.StrippedIsSubsequence | desloppify/base/text_utils.py:69-102 | the result is a subsequence of the text |
| CommentStripper.LiteralsSurvive | desloppify/base/text_utils.py:69-102 | every literal outside a comment survives character for character, escapes included, and no other appears |

## Left out

- Processes, signals, git and the GitHub client, file locking and clocks: inputs, as described above.
- The legacy day_key, merge_permit and authoritative_receipt inputs, and runs that start from a file written by an older
  version: histories start from the empty state.
- Sync without --apply, which only prints, and the recorded selection outcome, which nothing reads back.
- The order in which sync ranks safe candidates: any of them may be chosen.
- Revalidation, source manifests and evidence checks: their outcome is an input of every step that asks for it.
- How a work item's hashes are computed from its detail: the model carries the hashes the detail yields.
- What marks assessments stale, score recomputation, scan history and validation after a merge.
- How a finished host run's outcome is named from its exit and result, and the parsing of settings: inputs.
- Timestamps, notes and the texts of printed messages.
- The candidates list of a superseded entry, which is cut to five in the order of the state file.
- After the supersede passes: completed clusters, epic clusters, resurfaced skips and the pruning of old entries.
- The order of the hidden counts of the noise budget: a map holds them.
- The brief's fixed sentences: any lines that do not break and do not begin like a heading. The headings are the actual ones.
- The guidance a finding's brief takes instead of the item's own fields: both routes bring raw fields.
- The patterns that reject secrets, links and identifiers in a brief, and its size limit: a predicate on accepted text.
- Digits outside ASCII in a step's number.
- MergeIssues.WorkState.FindSuspects: the order of detectors in the loop is any order, because the result is a set.
