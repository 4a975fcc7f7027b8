# Models and proofs for the Codex Router's maintenance logic

This project models the parts of the repository that must not go wrong while nobody is
watching, and proves what they promise:

- **Lexing and packaging.** The hand-written JavaScript lexer of the package check, the
  extraction of import specifiers, and the closure of the package.
  `Lexer`, `LexerProgram`, `LexerComments`, `LexerNesting`, `LexerLayout`,
  `ModuleDependencies`, `ModulePrograms`, `ModuleRoundTrip`, `ModuleMisreads`, `PackageClosure`,
  `PackageReach`.
- **Transactions over files.** The six conversation-ledger operations, the canonical
  compaction source, service-bracketed restoration, the deployment of an installed
  directory, the dependency-tree swap, and Switchyard activation and recovery.
  `LedgerRecords`, `LedgerExamples`, `LedgerStore`, `Utf8`, `CanonicalSource`, `MaintenanceRestore`,
  `MaintenanceSnapshot`, `DeploymentPlan`, `Deployment`, `DependencySwap`, `SwitchyardRecovery`, `SwitchyardActivation`.
- **Validators and runs.** The Web evidence validator, the certification plan, the
  judgement of native observations, the stream observer and the publication of proofs.
  `WebItems`, `WebBrowser`, `WebLanguage`, `WebReceipt`, `WebRun`, `CertificationPlan`, `CertificationOutcomes`,
  `CertificationStream`, `CertificationPublication`.
- **Concurrency.** The evidence watcher and the syntax-check pool, as step relations.
  `EvidenceWatch`, `SyntaxPool`.

Where the source changes state step by step the model is a class or a method with loops,
proved against a function of the old state or against the promise itself; the theorems
are lemmas about those functions and over runs of those methods. Files are maps from
paths to contents. Failure is an input: a list of events, or a function of the step, says
for each effect whether it succeeds, is refused, takes effect and then reports failure, or
leaves something torn. When nothing fails the methods also say when they succeed.

## What the code does not keep

Each of these is a property that one would expect, the input that breaks it, and the
condition under which it holds.

- An import whose binding is named `from` is not extracted (`ModuleMisreads.FromBindingIsMissed`);
  `ModuleMisreads.ClauseIsReadWhen` says exactly when an import, or an export from another
  module, is read.
- An import call directly behind the string `"."` is taken for a property access
  (`ModuleMisreads.CallBehindStringIsMissed`, `ModuleMisreads.ImportCallIsReadWhen`).
- A method that is named `import` is taken for an import when it is called through `?.` or as
  a private name; through `.` it is not (`ModuleMisreads.MethodCallIsRead`,
  `ModuleMisreads.MethodCallIsReadWhen`).
- A package that passes the check can still reach a file that is not packaged, through a
  packaged file that is no `.mjs` module (`PackageReach.UnpackagedFileIsReached`). The check
  covers every chain of imports, on every disk, exactly if every packaged file is a module
  (`PackageReach.ClosureCoversWhen`).
- A snapshot revision that names another thread than its own source plan is confirmed but
  never rolled back (`LedgerExamples.RevisionOfAnotherThreadStays`); with equal threads it is,
  byte for byte (`LedgerRecords.ReviseThenUnrevise`).
- "Original ledger restored" is reported without looking at the ledger again, so it is
  false if the restarted service has already written it
  (`MaintenanceRestore.ReportedOriginalCanBeAdvanced`, `MaintenanceRestore.OriginalRestoredWhen`).
- A package that brings its own deployment manifest can prune unmanaged files, also in a run
  that is reported as rolled back (`Deployment.PackagedManifestPrunesUnmanaged`,
  `Deployment.RolledBackWithoutUnmanaged`). `Deployment.Deployer.Deploy` says for every end
  which unmanaged paths are lost, and `Deployment.UnmanagedKeptWhen` which packages never
  lose one. Such a package never reaches an unchanged state
  (`Deployment.NextRunChangesNothing`).
- A candidate's rename that takes effect and then reports failure leaves the installer's
  flags wrong: the retained tree is moved into the candidate, and the run reports that it was
  rolled back (`DependencySwap.LateRenameBuriesOriginal`). Every other failure, late or not,
  conserves the trees (`DependencySwap.ConservedWhen`).
- Evidence whose own write fails after leaving a file stays behind when publication is
  undone, and only then (`CertificationPublication.EvidenceStaysBehind`,
  `CertificationPublication.Publisher.Publish`).
- The restoration clause of the continuation phase never decides anything
  (`WebReceipt.RestorationAlwaysHolds`).
- An owned Router root is returned even after an unknown or foreign verdict
  (`SwitchyardRecovery.ResolvesWhen`).

## Model

| member | source | states |
|---|---|---|
| LexerProgram.Tokens | scripts/check-package-closure.mjs:8-140 | the index-advancing program gives exactly the tokens, or the failure, of the pushdown machine, for every source |
| LexerProgram.TokenReader.Code | scripts/check-package-closure.mjs:11-137 | one activation of `code`, under any suspended activations, consumes what the machine consumes and leaves it in the same state |
| LexerProgram.TokenReader.TemplateLiteral | scripts/check-package-closure.mjs:30-47 | template text and its interpolations, with the synthetic parentheses, follow the machine |
| LexerProgram.TokenReader.RegExpLiteral | scripts/check-package-closure.mjs:59-72 | a regular expression ends at the first slash outside classes and escapes, then its flags |
| LexerProgram.TokenReader.StringLiteral | scripts/check-package-closure.mjs:48-58 | a string token holds the body up to its quote and whether it has escapes; an unterminated one fails |
| LexerComments.CommentIsSpace | scripts/check-package-closure.mjs:19-29 | replacing any comment reached as code, at any depth of interpolation, by one space gives the same tokens or the same failure |
| LexerComments.StepLocal | scripts/check-package-closure.mjs:16-135 | a lexeme that ends inside known text is the same whatever follows |
| LexerNesting.AcceptedIsWellNested | scripts/check-package-closure.mjs:16-136 | the tokens of every accepted source print a forest: template delimiters and interpolation parentheses nest, braces balance inside each interpolation, brace depth never goes negative |
| LexerLayout.LexingRecoversTokens | scripts/check-package-closure.mjs:8-140 | lexing any text laid out from tokens with blanks, comments and nested templates gives back exactly those tokens |
| ModuleDependencies.LiteralModuleDependencies | scripts/check-package-closure.mjs:142-163 | the looping program gives the dependencies of the reference function, or its refusal |
| ModuleDependencies.Distinct | scripts/check-package-closure.mjs:162 | the same specifiers as collected, none twice |
| ModulePrograms.ExtractionIsExact | scripts/check-package-closure.mjs:142-163 | for every program of declarations, extraction gives exactly its relative specifiers, in order and once each, and refuses exactly when one is escaped |
| ModuleRoundTrip.ExtractionReadsLayout | scripts/check-package-closure.mjs:8-163 | the same from any text of such a program, with comments, strings and templates in between |
| ModuleRoundTrip.PrintThenExtract | scripts/check-package-closure.mjs:8-163 | printing a program and extracting gives back its specifiers |
| ModuleMisreads.ClauseIsReadWhen | scripts/check-package-closure.mjs:142-163 | an import or an export from another module gives its specifier exactly if no name of its clause is the word `from` or the string ";", or a name `import` stands behind the last such |
| ModuleMisreads.FromBindingIsMissed | scripts/check-package-closure.mjs:157-160 | a concrete import with a binding named `from` is missed |
| ModuleMisreads.ImportCallIsReadWhen | scripts/check-package-closure.mjs:142-163 | behind any terms, the collected dependencies hold the specifier of an import call exactly if the token before it is not "." in value |
| ModuleMisreads.CallBehindStringIsMissed | scripts/check-package-closure.mjs:151-155 | a concrete source with the string "." on one line and an import call on the next has no dependency |
| ModuleMisreads.MethodCallIsReadWhen | scripts/check-package-closure.mjs:151-155 | behind any terms, a call of a method named `import` is taken for an import exactly if it is accessed through another token than "." |
| ModuleMisreads.MethodCallIsRead | scripts/check-package-closure.mjs:151-155 | a concrete optional method call gives a dependency |
| PackageClosure.ValidatePackageClosure | scripts/check-package-closure.mjs:178-190 | validation reports no problem exactly if the package is closed |
| PackageClosure.ReachableIsPackaged | scripts/check-package-closure.mjs:142-190 | in a closed package every file reachable through literal relative imports is packaged and stays under the root, as long as the importing files are modules |
| PackageReach.ReachableByPrograms | scripts/check-package-closure.mjs:8-190 | for files that lay out programs: whatever is reached through the import declarations and import calls of packaged modules of a closed package is packaged and stays under the root |
| PackageReach.UnpackagedFileIsReached | scripts/check-package-closure.mjs:178-190 | a concrete closed package of a.mjs and b.js reaches c.js, which is not packaged |
| PackageReach.ClosureCoversWhen | scripts/check-package-closure.mjs:142-190 | for a list of paths that are all safe: on every disk a closed package contains whatever its imports reach, exactly if every listed file is a module |
| PackageClosure.AcceptedImportStaysInside | scripts/check-package-closure.mjs:165-188 | walking segment by segment from the importing directory to an accepted import never leaves the root and ends at the imported path |
| PackageClosure.SafePathIsItsResolution | scripts/check-package-closure.mjs:165-187 | a normalized path that is safe is exactly the resolution of its segments, and all of these are names |
| LedgerRecords.ConfirmThenRestore | maintenance/web-recovery.mjs:139-200 | the bytes a confirmation publishes are turned back, byte for byte, by the guard restoration |
| LedgerRecords.ConfirmedPlanAgrees | maintenance/web-recovery.mjs:139-175 | a confirmed plan names the turn that its proof names, because the schema refuses every other armed record |
| LedgerRecords.ReviseThenUnrevise | maintenance/web-recovery.mjs:300-350 | after a snapshot revision its rollback gives back the original bytes if the plan and its source plan name one thread, and refuses otherwise |
| LedgerExamples.RevisionOfAnotherThreadStays | maintenance/web-recovery.mjs:300-350 | a concrete plan that is confirmed and whose rollback refuses |
| LedgerRecords.CompactThenUncompact | maintenance/web-recovery.mjs:540-593 | a compaction restoration followed by its rollback gives back the original bytes |
| LedgerRecords.UnreviseNeedsRevised | maintenance/web-recovery.mjs:330-350 | over the archived original, the rollback of a revision accepts exactly the ledgers that read as what the revision published |
| LedgerRecords.UncompactNeedsCompacted | maintenance/web-recovery.mjs:573-593 | the same for the rollback of a compaction |
| LedgerStore.Store.PreserveOriginal | maintenance/web-recovery.mjs:534-539 | a copy is made without overwriting; success means these exact bytes are archived |
| LedgerStore.Store.Confirm | maintenance/web-recovery.mjs:139-175 | whatever fails, archives are kept and a replaced ledger stays readable; what is published is the confirmation's value for what was found |
| LedgerStore.Store.RestoreGuard | maintenance/web-recovery.mjs:176-200 | the same for the guard restoration |
| LedgerStore.Store.ConfirmRevision | maintenance/web-recovery.mjs:308-329 | the same for the snapshot revision |
| LedgerStore.Store.RollbackRevision | maintenance/web-recovery.mjs:330-350 | the same for its rollback |
| LedgerStore.Store.ApplyCompaction | maintenance/web-recovery.mjs:540-572 | the same for the compaction restoration |
| LedgerStore.Store.RollbackCompaction | maintenance/web-recovery.mjs:573-593 | the same for its rollback |
| LedgerStore.Store.ConfirmThenRestoreGuard | maintenance/web-recovery.mjs:139-200 | run one after the other with nothing failing, the second succeeds exactly if its copy can be kept, and the ledger is then byte-identical |
| LedgerStore.Store.ReviseThenRollback | maintenance/web-recovery.mjs:308-350 | the same for the snapshot revision and its rollback, which also needs the two threads to be one |
| LedgerStore.Store.CompactThenRollback | maintenance/web-recovery.mjs:540-593 | the same for the compaction and its rollback |
| LedgerStore.Store.RollbackRevisionAfter | maintenance/web-recovery.mjs:308-350 | a revision, then any commands under any failures and outside writes, then its rollback: the rollback publishes only over a ledger that reads as what the revision published, and puts back the very bytes that the revision replaced |
| LedgerStore.Store.RollbackCompactionAfter | maintenance/web-recovery.mjs:540-593 | the same for a compaction |
| LedgerStore.Store.PerformAll | maintenance/web-recovery.mjs:139-593 | over any run of the six operations, under any failures and outside writes, no archive changes and every ledger content ever replaced can still be read |
| Utf8.DecodeEncode | maintenance/web-recovery.mjs:355-364 | decoding undoes encoding |
| Utf8.DecodeSplit | maintenance/web-recovery.mjs:361-364 | bytes that end with a line feed decode on their own, so cutting behind lines never cuts a character |
| CanonicalSource.CanonicalNativeCompactionSource | maintenance/web-recovery.mjs:355-416 | the loop computes the fold over lines, or its first refusal |
| CanonicalSource.AcceptsExactly | maintenance/web-recovery.mjs:355-416 | a rollout is accepted exactly if it is complete, every record may stand where it stands, clocks do not go back, and one compaction exists |
| CanonicalSource.BoundaryIsCompactionLine | maintenance/web-recovery.mjs:380-388 | the byte range is exactly the one compaction's line, the prefix digest covers everything before it, and the source holds the readable inputs before it |
| CanonicalSource.AcceptedPrefix | maintenance/web-recovery.mjs:463-467 | when a rollout is accepted, a prefix that ends with a line is accepted exactly if it holds the compaction, with the same result |
| CanonicalSource.AppendStable | maintenance/web-recovery.mjs:463-467 | if a rollout and an extension of it are both accepted, the results are equal |
| MaintenanceRestore.Maintenance.Publish | maintenance/web-runtime-maintenance.mjs:86-100 | the ledger is written only under the precondition that the service is stopped |
| MaintenanceRestore.Restore | maintenance/web-runtime-maintenance.mjs:73-104 | every write of a whole restoration happened while the service was stopped |
| MaintenanceRestore.NothingFails | maintenance/web-runtime-maintenance.mjs:83-92 | with nothing failing the new ledger is written once, with the service stopped, and the service is accepted again |
| MaintenanceRestore.RestoredMeans | maintenance/web-runtime-maintenance.mjs:86-93 | a receipt is returned only if the last comparison found the new ledger under an accepted running service; only that service can have written since |
| MaintenanceRestore.OriginalRestoredMeans | maintenance/web-runtime-maintenance.mjs:94-102 | a reported recovery found the original ledger before the restart and ends with an accepted running service |
| MaintenanceRestore.OriginalRestoredWhen | maintenance/web-runtime-maintenance.mjs:94-102 | that report is true exactly if the started service leaves the ledger in place until it is accepted |
| MaintenanceRestore.QuietReportsAreTrue | maintenance/web-runtime-maintenance.mjs:73-104 | if the running service writes nothing, both reports are true to the letter |
| MaintenanceRestore.ReportedOriginalCanBeAdvanced | maintenance/web-runtime-maintenance.mjs:73-104 | a concrete whole restoration reports the original ledger although another one is there |
| MaintenanceSnapshot.RestoredSnapshot | maintenance/web-runtime-maintenance.mjs:59-71 | accepts exactly a settled reviewed ledger with joining sidecars; the result is sorted by name and a permutation of the expected rows |
| MaintenanceSnapshot.OnlyReviewedDiffers | maintenance/web-runtime-maintenance.mjs:57-71 | exactly the target's digest may differ and exactly the expected sidecars may be new; nothing disappears |
| Deployment.Deployer.Deploy | deploy-codex-router.ps1:212-320 | every end of the transaction: refused exactly if the package is declined or an effect before the change fails; published exactly if it is accepted, changes something, can be pruned for and none of its effects fails; rollback failed exactly if an effect fails behind the point where the application stopped, and never after a single failure; every unmanaged path is as before, or lost exactly if pruning removed it; and what each end leaves installed, kept as backup and accepted |
| Deployment.Deployer.Replace | deploy-codex-router.ps1:245-310 | back up, apply, and restore on failure, for every point of failure, with the exact conditions of refusal and publication |
| Deployment.Deployer.Restore | deploy-codex-router.ps1:179-195 | a restoration completes exactly if every managed path is safe and none of its effects fails, and then leaves every managed path and the manifest as backed up |
| Deployment.Deployer.RollBack | deploy-codex-router.ps1:282-310 | the same with the installer and its checks behind it |
| Deployment.Deployer.Prune | deploy-codex-router.ps1:100-110 | exactly which files are removed, whatever fails; it completes exactly if no retired path is unsafe and no removal fails; an unreadable manifest stops it |
| DeploymentPlan.ChangedFiles | deploy-codex-router.ps1:165-177 | nothing has changed exactly if every path of both generations is in both with equal bytes |
| Deployment.OnlyManagedPaths | deploy-codex-router.ps1:233-310 | for a package without a manifest of its own: unmanaged paths are never touched, a rollback restores all but the temporary file, success puts source content and removes retired files |
| Deployment.UnmanagedKeptWhen | deploy-codex-router.ps1:100-120 | exactly for which packages every deployment, whatever fails and however it ends, leaves every unmanaged path as it was |
| Deployment.EndangeredFiles | deploy-codex-router.ps1:100-120 | all other packages bring a manifest of their own that names an installed unmanaged file |
| Deployment.PackagedManifestPrunesUnmanaged | deploy-codex-router.ps1:100-120 | a run that publishes a package with a manifest of its own and prunes an unmanaged file |
| Deployment.RolledBackWithoutUnmanaged | deploy-codex-router.ps1:100-310 | a run in which nothing fails, that is reported as rolled back and has lost an unmanaged file |
| Deployment.NextRunChangesNothing | deploy-codex-router.ps1:165-177 | after success the next change list is empty exactly if the manifest is not packaged, or packaged with the content that is written |
| DependencySwap.ConservedWhen | install.ps1:638-752 | over all runs: at every move the original tree is whole at exactly one of its active and previous places, exactly if no candidate is renamed late over a retained original that is then moved home |
| DependencySwap.ReturnedWhen | install.ps1:704-752 | a run reported as rolled back has each active place as before exactly if no candidate was renamed late, and the earlier service serves again |
| DependencySwap.NothingDeletedBefore | install.ps1:762-776 | retained trees are deleted exactly in installed runs, which serve the candidates |
| DependencySwap.LateRenameBuriesOriginal | install.ps1:717-724 | a concrete run that reports a rollback and leaves the original inside the candidate |
| DependencySwap.NothingFails | install.ps1:638-776 | with no failure the candidates are installed |
| SwitchyardRecovery.RuntimeMembership | maintenance/switchyard-recovery.ps1:17-34 | the managed names present, or a refusal exactly if one is not a regular file |
| SwitchyardRecovery.ValidatedSnapshotMembership | maintenance/switchyard-recovery.ps1:36-52 | accepts exactly complete metadata that names each physical member once and nothing else |
| SwitchyardRecovery.AcceptedOwners | maintenance/switchyard-recovery.ps1:71-89 | exactly the completed, fully checked operations that own the backup |
| SwitchyardRecovery.ArchivePlan | maintenance/switchyard-recovery.ps1:56-112 | a plan exists exactly if there is one managed, validated backup with one accepted owner that matches the installation and is not archived |
| SwitchyardRecovery.ResolvesWhen | maintenance/deploy-switchyard-candidate.ps1:318-346 | exactly which verdicts establish a live root, and which establish absence |
| SwitchyardActivation.Deployment.ResolveLiveRouterRoot | maintenance/deploy-switchyard-candidate.ps1:318-346 | the loop gives the resolution of its verdicts; absence means that no Router is live; with no live Router or a managed one it fails only after a failure |
| SwitchyardActivation.Deployment.StopRouterGeneration | maintenance/deploy-switchyard-candidate.ps1:353-359 | success means that no Router is live, whatever the stop command reported |
| SwitchyardActivation.Deployment.WriteRuntime | maintenance/switchyard-activation.ps1:25-44 | runtime files are written only while no Router is live |
| SwitchyardActivation.Deployment.EstablishSnapshot | maintenance/deploy-switchyard-candidate.ps1:624-648 | a fresh snapshot equals the runtime directory; a preserved one is validated and untouched |
| SwitchyardActivation.Deployment.Activate | maintenance/switchyard-activation.ps1:2-95 | until activation starts nothing changes; success leaves the candidate's files under the live candidate |
| SwitchyardActivation.Deployment.RestoreSwitchyard | maintenance/deploy-switchyard-candidate.ps1:477-493 | completion makes the four files equal the snapshot in membership and content |
| SwitchyardActivation.Deployment.RollBack | maintenance/switchyard-activation.ps1:104-114 | completion means the snapshot's files under the live previous generation; with nothing failing it completes exactly if the runtime files are plain and no Router or a managed one is live |
| SwitchyardActivation.Deployment.Deploy | maintenance/deploy-switchyard-candidate.ps1:616-657 | an aborted deployment changes nothing, a deployed or rolled-back generation passed its checks after the last change, and the snapshot is deleted only if activation never began and it was not preserved; with nothing failing it deploys exactly if a snapshot can be established, and a single failure never leaves the rollback failed |
| SwitchyardActivation.FreshMetadataIsValid | maintenance/deploy-switchyard-candidate.ps1:637-647 | metadata written for a snapshot validates against it |
| WebItems.Collect | maintenance/web-verification.mjs:287-362 | the loop collects the calls, outputs and finals of the fold, or its first refusal |
| WebItems.ItemsArePaired | maintenance/web-verification.mjs:342-357 | ids are used once, an output answers one earlier call of its own kind, and browser calls do not overlap |
| WebBrowser.VisitCalls | maintenance/web-verification.mjs:363-442 | the loop over calls computes the fold, or its first refusal |
| WebBrowser.AcceptedTrace | maintenance/web-verification.mjs:363-442 | when every call was answered, the browser calls spell a prefix of continue+ send observe+ retain with at most one missed continue, followed at once by a full continuation |
| WebLanguage.LanguageIsExact | maintenance/web-verification.mjs:363-442 | a turn of browser calls that are each in order by themselves is accepted exactly if the calls spell a conversation, or the beginning of one |
| WebLanguage.ProperDecides | maintenance/web-verification.mjs:368-432 | such a call is accepted exactly if it fits the conversation so far |
| WebReceipt.SelectedTurnIsWhole | maintenance/web-verification.mjs:203-214 | the selected rows are the only run of the turn, up to the next start of any turn |
| WebReceipt.CallsAnswered | maintenance/web-verification.mjs:350-357 | without a pending call, each call item has exactly one later output of its kind |
| WebReceipt.PassedReceipt | maintenance/web-verification.mjs:531-551 | a passing native, recall or continuation receipt means a whole conversation with exactly one send over the saved chat, all calls answered, a completed retain, and one exact native command or none |
| WebReceipt.RestorationAlwaysHolds | maintenance/web-verification.mjs:547-549 | the continuation's restoration clause holds for every accepted trace with a send |
| WebRun.RunKeeps | maintenance/web-verification.mjs:598-635 | over every sequence of waits: a recorded phase has a passed predecessor, turns are not reused, the checkpoint belongs to a passed readiness |
| WebRun.ReceiptsStay | maintenance/web-verification.mjs:603-605 | a recorded receipt is never replaced |
| WebRun.CompletedRun | maintenance/web-verification.mjs:598-635 | once the continuation has passed all five phases have, readiness and stop in one turn and the others each in their own |
| CertificationPlan.Runner.StreamRoutes | maintenance/certification-runner.mjs:139-161 | requests, streams and outcomes are those of the reference functions, up to the record that fails |
| CertificationPlan.Runner.ObserveNatively | maintenance/certification-runner.mjs:166-176 | exactly the streamed routes are observed, and all others have their final outcome |
| CertificationPlan.Runner.CheckSmoke | maintenance/certification-runner.mjs:177-192 | what the additional check leaves of the summary, or that it ends the run |
| CertificationPlan.Runner.Execute | maintenance/certification-runner.mjs:130-198 | every run: exactly which requests are sent and which routes are observed, as far as the records are written; exactly when a result is returned; its run status; and the status of every route, blocked, waiting, failed, not run or drafted |
| CertificationPlan.EachReadyRouteOnce | maintenance/certification-runner.mjs:142-162 | requests go out in order, once each, to ready routes only, none after a shared refusal |
| CertificationPlan.DraftMeansAll | maintenance/certification-runner.mjs:133-138 | "draft" means that every route of the batch was drafted |
| CertificationPlan.DraftIsProved | maintenance/certification-runner.mjs:105-117 | a drafted route was streamed to completion before its native sequence began, and passed every check |
| CertificationOutcomes.ExtractCertificationOutcomes | maintenance/certification-evidence.mjs:85-193 | the loops give the outcomes of the reference function |
| CertificationOutcomes.ChildIdentities | maintenance/certification-evidence.mjs:103-110 | refuses exactly if one identity is claimed for two roles |
| CertificationOutcomes.OutputIsUnique | maintenance/certification-evidence.mjs:54-58 | an output is found exactly if one row alone is an output with the call's identity and that row is not before the call |
| CertificationOutcomes.OutcomesPartition | maintenance/certification-evidence.mjs:111-118 | each requested route is reported exactly if verified and failed otherwise, and nothing else is |
| CertificationOutcomes.EventsAreChained | maintenance/certification-evidence.mjs:119-190 | the events of each report are ordered from spawn through both handoffs, markers and completions to the parent's completion |
| CertificationOutcomes.StrictReportsAll | maintenance/certification-evidence.mjs:196-200 | the strict interface succeeds exactly if every route was verified |
| CertificationOutcomes.ForeignRowsDoNotMatter | maintenance/certification-evidence.mjs:88-102 | well-stamped rows outside the window, anywhere in the parent, change nothing |
| CertificationOutcomes.ForeignChildRowsDoNotMatter | maintenance/certification-evidence.mjs:127-143 | neither do such rows in a child |
| CertificationOutcomes.ForeignTimingsDoNotMatter | maintenance/certification-evidence.mjs:119-190 | a timing of a thread that belongs to no child changes nothing for any route but a Switchyard one, whatever else the run contains |
| CertificationOutcomes.ForeignTimingsDoNotMatterToRun | maintenance/certification-evidence.mjs:85-193 | nor for the whole run, as long as the Switchyard summaries, which read the whole log, are the same |
| CertificationStream.ObserveCertificationStream | maintenance/certification-runner.mjs:69-103 | the loop computes the fold, or its first refusal |
| CertificationStream.PassesExactly | maintenance/certification-runner.mjs:69-103 | exactly which streams pass |
| CertificationPublication.Publisher.Publish | maintenance/certification-runner.mjs:421-440 | publication completes exactly if the evidence path is free and no write fails, and a single failure is put back; whatever fails, only the proofs and the evidence are touched; unless putting back fails too the proofs are as before, and the evidence stays exactly if its own write failed after leaving a file |
| CertificationPublication.EvidenceStaysBehind | maintenance/certification-runner.mjs:421-440 | a concrete run after which the evidence is there and the next publication refuses |
| EvidenceWatch.GroupByDirectory | maintenance/web-verification.mjs:578-582 | exactly the given files are watched, directory by directory |
| EvidenceWatch.BeginIsSound | maintenance/web-verification.mjs:583-594 | set-up ends soundly, also when a registration throws midway |
| EvidenceWatch.RunKeeps | maintenance/web-verification.mjs:559-596 | in every reachable state: settled at most once and exactly if closed, then all watchers and the timer are released; while open an inspection is queued behind every unseen event |
| EvidenceWatch.SettledIsFinal | maintenance/web-verification.mjs:563-569 | once settled nothing settles again, inspects or opens |
| EvidenceWatch.EventIsInspected | maintenance/web-verification.mjs:584-591 | after a relevant event every continuation has settled, inspected, or still has an inspection queued |
| EvidenceWatch.DeadlineSettles | maintenance/web-verification.mjs:568-592 | while open the deadline can come, inspects once more and settles |
| EvidenceWatch.DeadlineFailsOnlyAfterInspection | maintenance/web-verification.mjs:568-592 | the deadline failure is reported only when that inspection found nothing final |
| SyntaxPool.RunKeeps | scripts/check-syntax.mjs:24-48 | under every interleaving files start in order and once each, and no more are under check than workers were started |
| SyntaxPool.PoolTerminates | scripts/check-syntax.mjs:30-46 | every finished check lowers a measure, so runs are bounded |
| SyntaxPool.NeverStuck | scripts/check-syntax.mjs:30-46 | unless every worker is done some check can finish |
| SyntaxPool.FailureStopsStarting | scripts/check-syntax.mjs:31-42 | after a recorded failure nothing starts and the report stays |
| SyntaxPool.WholeRun | scripts/check-syntax.mjs:24-48 | no more checks than files; success exactly if no check failed, and then every file passed once; otherwise the first recorded failure is reported |

## Left out

- Characters: the lexer reads Unicode scalar values, not UTF-16 code units; the locals of one `code` activation are one value that the methods replace.
- LexerLayout.LexingRecoversTokens: the printed and laid-out texts contain no division and no regular expression; the other lexer theorems are about every source.
- Paths of the package check are modelled by their segments; only the parts of the posix path library that the check uses are there.
- LedgerRecords.ConfirmThenRestore: of the schema, the fields that the operations read or write are modelled and the shapes of all others are a parameter, as are JSON, UUID checks and the browser reconciliation; serialization is assumed to parse back for valid ledgers, and SHA-256 is idealized as injective.
- LedgerStore.Store.PerformAll: writing one private file is atomic; wall-clock times and file permissions are not modelled.
- CanonicalSource.CanonicalNativeCompactionSource: how a line is read as JSON and the serialized size of a source are parameters; the file-identity checks of reading are not part of this model.
- Inspection and preparation of recovery plans (maintenance/web-recovery.mjs:79-112, 240-298, 435-498) only gather what the plans hold; plans are inputs.
- MaintenanceRestore: the snapshot of conversation ledgers is compared through the one ledger that may change; `MaintenanceSnapshot` orders names by character code.
- The outer maintenance run (maintenance/web-runtime-maintenance.mjs:154-260) sequences operations that are modelled one by one.
- Deployment: directories, links and the drain handshake are reduced to a set of unsafe paths and to commands that succeed or fail; the final removal of the temporary directory is not modelled.
- Deployment.Deployer.WriteManifest: moving the new manifest into place is atomic.
- DependencySwap: building the candidates, the drain and the service commands of the installer are commands that touch no tree; a rename either happens as a whole or not at all.
- SwitchyardActivation: outside programs that start a Router between a check and a write are not modelled; the contents of provenance and acceptance records are data.
- SwitchyardActivation.Deployment.Activate: a preserved snapshot is trusted as in the source, so a directory in the place of a runtime file is not distinguished from a file there.
- WebReceipt.PassedReceipt: the adapter's authority and the stop confirmation chain (maintenance/web-verification.mjs:459-530) are conclusions given to the model; the readiness and stop phases are modelled up to them, and the UUID check of the turn id is left out.
- WebItems, WebBrowser: field-by-field checks of envelopes, programs and frames are flags of the records or reader functions.
- WebRun.RunKeeps: the identity checks before each inspection are part of the evidence given to it; prompts, preparation and JSON lines are presentation or input and output.
- CertificationPlan.Runner.Execute: routes are taken to be unique, as their selection guarantees (maintenance/certification-preflight.mjs:117); the texts of failures are reduced to codes.
- CertificationOutcomes.ExtractCertificationOutcomes: the reasons of failed routes are not kept; command output, acknowledgements and the Switchyard summary are reader functions.
- CertificationStream.ObserveCertificationStream: the framing of server-sent events (section 9.2.6 of the WHATWG HTML Living Standard) is not part of this model; the observer is modelled over framed events, with the white space that `trim` removes as a parameter.
- CertificationPublication.Publisher.Publish: choosing the published fields and rendering the proofs happen before and are inputs.
- EvidenceWatch: a watcher object whose listener registration throws is not modelled.
- SyntaxPool: collecting and sorting the files, and the check command itself, are left out.
- Command-line parsing, process spawning, access control lists, git, npm, uv, HTTP and log messages.
