# Verification of the mutation protocols, goal plan artifacts and review records

The repository is a command line tool with a pure core (`packages/core`) and a shell around it
(`packages/cli`). It installs managed files into somebody else's working tree, checks JSON artifacts
that bind a plan to its sources by digest, and keeps a directory of immutable review records that
several processes may write at once. This project models those three parts and the browser page that
edits revision requests, and proves what they promise.

- **Mutation runs.** `init` and `codex activate` change a tree in four phases: check, prepare, look
  again, apply. Every destination has a private stage that holds the new contents and a copy of the
  old ones; the commit marker is the last effect; any failure or interruption is undone last effect
  first. Core judges the report of a run without trusting the executor. `MutationStore.Store` is the
  target tree as a mutable object: every operation may fail, a hook may throw after an operation has
  happened, and an interruption may arrive at any poll. A *calm* store is one in which nothing fails;
  it may still be interrupted. The store keeps a trace of every tree it went through, so the
  executors' contracts speak about every instant of a run and not only about its end.
- **Activation planning.** The plan is a function of what was observed. Around it stand the byte-level
  parsers of the managed section of AGENTS.md, the installed snapshot with its POSIX checksum, and the
  theorem that planning again after a committed run finds nothing to do.
- **Goal plan artifacts.** A hand-written scanner guards JSON parsing; a depth-first search checks the
  dependencies; a Review is bound to a Manifest, the Manifest to a Declaration and to its sources. The
  scanner is proved to accept exactly a grammar, the search exactly the graphs that can be put in
  order, the validators exactly the whole chain of bindings, and the exporters exactly the inputs
  their own validators accept afterwards, in one canonical form.
- **Review records.** Records are created by a hard link from a temporary file. Any number of
  processes may interleave, fail or stop after any step.
- **Revision requests.** The page's requests form chains in which one supersedes another. Edits,
  exports, restored sheets, quarantined storage and imported sheets keep these chains in order, or
  break them exactly when a stated condition holds.

## How the files fit together

| part | modules |
|---|---|
| the tree, the plan, the report | MutationModel, MutationStore, MutationEvaluate, MutationRun, MutationPlan, MutationScope, MutationCurrent |
| what both executors share | MutationSteps, MutationPhases, MutationCleanup, MutationRecovery, MutationPrepare, MutationRecheck, MutationFinish, MutationLoss, MutationReports, MutationVerdict, MutationStop, MutationOrphan |
| `init` | InitPlan, InitReach, InitSafety, InitProgress, InitRecovery, InitMutation, StagePaths |
| `codex activate` | ActivationScope, ActivationPlan, ActivationPlanned, ActivationReady, ActivationFolder, ActivationRecovery, ActivationMutation, ActivationTree, ActivationProgress, ActivationFixpoint, ActivationExceptions, ActivationCommand |
| texts and checksums | TextPatterns, Utf8, MarkerSpan, ActivationAgents, ActivationSnapshot, Cksum, DirectoryNames |
| goal plans | JsonText, JsonScan, JsonLexemes, JsonGrammar, Topology, TextOrder, GoalPlanModel, GoalPlanReaders, GoalPlanWriting, GoalPlanBinding, GoalPlanSafety, GoalPlanExport, GoalPlanComplete, GoalPlanCanonical, GoalPlanTwins |
| records | RecordStore, RecordRaces, RecordGap, RecordCalls, ArtifactWriter |
| revisions | RevisionModel, SupersedesChain, RevisionState, RevisionRuns, RevisionHistory, Quarantine, RevisionRestore, RevisionImport, RevisionWaiting, RevisionOrder, RevisionStray |

`dafny verify dfyconfig.toml` checks everything.

## Findings

Where a promise does not hold of the code as it is, the code is kept, a lemma gives an input or a step
for which it fails, and another one says exactly when it holds.

1. **Two accepted sources do not settle** (packages/core/src/activation.ts:240-273). `validSource`
   admits a packaged skill that is a bare byte order mark and a packaged block that contains a legacy
   marker line. Either one is planned and installed, and planning again is then a conflict:
   `ActivationExceptions.BareMarkDoesNotSettle`, `ActivationExceptions.LegacyLineDoesNotSettle`. These
   are the only two: `ActivationCommand.ActivationSettles` is an if-and-only-if, and
   `ActivationExceptions.SecondPlanConflicts` names the conflict.
2. **A waiting record set can become invalid** (packages/cli/src/review-import.ts:283-312). A stored
   revision may name a target that is not stored yet. A later sheet that is accepted can bring that
   target and lead back to the waiting revision; the set then fails its own check
   (`RevisionImport.WaitingSetCanCycle`). It happens exactly if the sheet closes such a loop
   (`RevisionWaiting.ImportKeepsValidIff`), and never if every superseded id is stored
   (`RevisionWaiting.KnownTargetsSuffice`).
3. **The second look excuses entries without an identity** (packages/cli/src/init-mutation.ts:254-270).
   At a path that was expected to be missing, a symlink or an entry that could not be confirmed
   compares equal to "created by no one" (`MutationRecheck.SymlinkEscapesRecapture`);
   `MutationRecheck.RecaptureReports` says exactly which differences are reported.
4. **`mkdir` followed by a failing `lstat` leaves a directory behind**
   (packages/cli/src/init-mutation.ts:111-114). The executor does not know that it owns it.
   `MutationOrphan.DirectoryGoesUnreported` gives the step, for every plan: no list of the report is
   filled, and the verdict is "recovered" although the tree is not the initial one. The restored tree
   is always the initial one plus at most this one directory, and exactly the initial one in a run
   without failures (`InitMutation.ExecuteInitMutation`).
5. **A legacy directory that had to be made again is another one**
   (packages/cli/src/activation-mutation.ts:493-504). `MutationOrphan.FolderComesBackOther` gives the
   step, for every migration: its identity is new, and the verdict is still "recovered". All
   other contents and modes are as before (`ActivationMutation.ExecuteActivationMutation`).
6. **The planner of `init` accepts a regular file in place of a managed directory**
   (packages/core/src/init.ts:270-300). With a file named `guidance` and nothing else, a plan is made
   that cannot be carried out (`InitReach.FileInPlaceOfDirectory`). A plan can be carried out exactly
   if no file is in the place of a directory it needs (`InitReach.PlanIsReachableIff`); the observer's
   rule that nothing below a file can be confirmed sees to that (`InitReach.PlanIsReachable`).
7. **A draft may supersede anything the caller says**
   (packages/core/src/review/annotation-state.ts:271-278). On an empty page, a draft that supersedes an
   unknown request is added, and the page is out of order (`RevisionStray.StrayDraftBreaksPage`).
   `addDraft` keeps the page in order exactly if the named target is on the page, exported and not
   superseded yet (`RevisionRuns.AddDraftHolds`).
8. **Taking a record back may leave a gap, then or later** (packages/cli/src/review-records.ts:494-526).
   When the look at a new record fails, the call removes the record again. A call that has already
   gone past its number can take the next one afterwards: `RecordGap.UndoCanLeaveGap` is such a run.
   No gap arises, then or until another record is taken back, exactly if no higher number is taken and
   no call is past this one (`RecordRaces.UndoAndGaps`); a whole run stays in order exactly if this
   holds whenever a record is taken back (`RecordRaces.RunInOrder`).
9. **Sorted paths are compared as octets** (packages/core/src/goal-plan-artifacts.ts:811-823). Two
   reviewed sources whose paths differ only in unpaired surrogates have the same octets
   (`GoalPlanTwins.TwinsAreNotSorted`), so a Manifest with both is rejected
   (`GoalPlanTwins.TwinsAreRejected`); the exact condition is in
   `GoalPlanComplete.ManifestExportMeaning`.

## Model

| member | source | states |
|---|---|---|
| InitMutation.ExecuteInitMutation | packages/cli/src/init-mutation.ts:292-646 | For every well-formed plan, every failure and every interruption: Core accepts the report; its verdict is true of the tree left behind (refused: unchanged; applied: exactly the plan; recovered: the initial tree but for an orphaned directory; incomplete: every file is old or new and every copy is kept). At every instant each destination was on one side of its change with its copy kept; nothing but the marker's new copy ever stood in place of the initial marker, and that copy only beside a complete tree or where the report lists its removal as failed. Without failures the verdict is refused, recovered or applied exactly as the tree is outdated, the run interrupted, or neither, and no directory stays behind |
| ActivationMutation.ExecuteActivationMutation | packages/cli/src/activation-mutation.ts:198-615 | The same for Activation: copies compared with the planned original, the legacy directory removed last and made again when undone; there the marker's new copy may also stand while its failed restoration is listed as unrecovered |
| ActivationCommand.Activate | packages/cli/src/activation.ts:394-452 | Observe, plan, execute: nothing is touched without a plan; Core never finds the report invalid; without failures a fresh plan is applied, or undone completely if interrupted; after an applied run the same look settles |
| ActivationCommand.ActivationSettles | packages/core/src/activation.ts:622-1011 | A run that Core calls applied, on the tree it was planned from, leaves a tree whose observation plans to Unchanged, if and only if the packaged skill is not a bare byte order mark and the packaged block has no legacy marker line |
| ActivationFixpoint.SettlesWhereObserved | packages/core/src/activation.ts:622-1011 | The same iff for any later observation that shows the planned installation |
| ActivationFixpoint.UserTextSurvives | packages/core/src/activation.ts:843-870 | Whatever is planned, AGENTS.md is the first payload and its text outside the managed section is byte for byte the observed one |
| ActivationExceptions.SecondPlanConflicts | packages/core/src/activation.ts:622-1011 | For every plannable source that does not settle, planning over its installation is a conflict at the skill directory (bare mark) or at AGENTS.md (legacy line) |
| ActivationExceptions.BareMarkDoesNotSettle | packages/core/src/activation.ts:240-273 | A concrete valid source with a bare mark as its skill: planned, installed, then a conflict |
| ActivationExceptions.LegacyLineDoesNotSettle | packages/core/src/activation.ts:249-273 | A concrete valid source with a legacy marker line in its block: planned, installed, then a conflict |
| ActivationExceptions.InstallationIsObserved | packages/cli/src/activation-observation.ts:158-199 | For every covered surface there is an observation that shows the installation: the hypothesis of the fixpoint can always be met |
| ActivationTree.CommittedIsInstalled | packages/cli/src/activation-mutation.ts:596-614 | Observing the tree of a committed run shows the planned installation: contents, modes, directories, members, legacy files gone, whatever was there before |
| ActivationProgress.FreshPlanIsReady | packages/core/src/activation.ts:622-1085 | A plan made from the observation of a tree is current on that tree, all its paths can be reached, and the legacy directory holds only what the plan removes |
| ActivationPlanned.PlanIsWellFormed | packages/core/src/activation.ts:934-1066 | Every plan has distinct effects and fresh distinct stages, the commit marker last, no effect at a directory, and removes only observed legacy files |
| ActivationPlanned.PayloadsAreAccepted | packages/cli/src/activation-mutation.ts:230-252 | The payloads of a plan pass the executor's check of digest and mode for every effect |
| InitProgress.FreshPlanIsReady | packages/core/src/init.ts:725-909 | A plan made from the observation of a tree is current on it and its paths can be reached |
| InitReach.PlanIsReachable | packages/core/src/init.ts:725-909 | Every destination and every stage of a plan lies in the root, in a directory the plan saw, or in one created before it is needed, if the observer confirms nothing below a regular file |
| InitReach.PlanIsReachableIff | packages/core/src/init.ts:270-300 | A plan can be carried out if and only if no path it changes, and no directory it creates, lies directly in a managed directory that was observed as a file |
| InitReach.FileInPlaceOfDirectory | packages/core/src/init.ts:270-300 | A concrete observation, a file named guidance and nothing else, for which a plan is made that cannot be carried out |
| InitPlan.PlanIsWellFormed | packages/core/src/init.ts:725-909 | Every accepted request yields distinct managed paths, fresh distinct stages, the marker as last effect, all managed paths as preconditions and no effect at a directory |
| InitSafety.SafePlanInstallsOnly | packages/core/src/init.ts:780-870 | A plan in the safe mode only installs, and only where nothing was observed |
| InitSafety.InstallsKeepEverything | packages/cli/src/init-mutation.ts:633-645 | Everything that was in the tree before a committed run of such a plan is there afterwards, unchanged |
| MutationVerdict.RecoveryVerdict | packages/core/src/init.ts:545-692 | After a recovery without loss the report is valid and its verdict true; without residue it is exactly "apply failed, recovered" |
| MutationVerdict.CommitVerdict | packages/core/src/init.ts:545-692 | A commit report is valid and its verdict true; without residue it is exactly "applied" |
| MutationVerdict.PrepareVerdict | packages/core/src/init.ts:545-692 | A run that failed while preparing has a valid report and a true verdict; if everything was cleaned up, it is exactly "apply failed, recovered" |
| MutationVerdict.StaleVerdict | packages/core/src/init.ts:545-692 | A run stopped by a stale tree has a valid report, and the verdict on it is true of the tree |
| MutationVerdict.LossVerdict | packages/core/src/activation.ts:1300-1441 | Core's verdict on a report with unrecovered paths is true of the tree whenever the loss is contained: old or new files, every copy kept, the marker dealt with |
| MutationReports.RefusalIsValid | packages/core/src/init.ts:387-543 | Every refusal an executor can make passes Core's consistency check |
| MutationReports.CommitIsValid | packages/core/src/init.ts:387-543 | Every commit an executor can report passes it |
| MutationReports.RecoveredIsValid | packages/core/src/init.ts:387-543 | Every recovery report, with or without loss, passes it |
| MutationReports.RecoverySorts | packages/cli/src/init-mutation.ts:541-580 | Every attempted path is in exactly one of restored and unrecovered |
| MutationLoss.LossFromView | packages/cli/src/init-mutation.ts:582-609 | After a loss every file is on one side of its change with its copy kept in a retained stage, and the new marker is in place only if its removal is listed as failed |
| MutationOrphan.DirectoryGoesUnreported | packages/cli/src/init-mutation.ts:111-114 | For every plan: one step of makeDirectory after which a directory is there, the report lists nothing, and the verdict is recovered |
| MutationOrphan.FolderComesBackOther | packages/cli/src/activation-mutation.ts:493-504 | For every migration: after the directory was removed and made again its identity is new, all else is as before, and the verdict on the report of a complete undo is recovered |
| MutationRun.ViewStep | packages/cli/src/init-mutation.ts:512-580 | The invariant behind the loops: whenever the bookkeeping of sides is true of a tree, that tree keeps the promise of every instant |
| MutationRun.Focus | packages/cli/src/init-mutation.ts:512-580 | An operation confined to one effect's places changes the side of that effect and of no other |
| InitRecovery.RecoverItems | packages/cli/src/init-mutation.ts:541-580 | Undoes last effect first: each visited path is restored or listed as unrecovered, a lost marker is removed before anything else is undone, the bookkeeping stays true throughout, and without failures nothing is unrecovered |
| InitRecovery.InvalidateIfUnrecovered | packages/cli/src/init-mutation.ts:582-596 | After the loop any unrecovered path forces one attempt to remove the marker, and the report says how it went |
| ActivationRecovery.UndoItems | packages/cli/src/activation-mutation.ts:511-551 | Activation's loop: every attempted effect is visited before the marker is considered; a file that came back has its directory |
| ActivationRecovery.RemoveLostMarker | packages/cli/src/activation-mutation.ts:553-560 | The marker is removed, or its removal is the one entry of the failed list |
| ActivationFolder.MakeFolderAgain | packages/cli/src/activation-mutation.ts:493-504 | Trying to make the legacy directory again keeps every effect on its side; a directory that is there afterwards is recorded as the run's own |
| ActivationFolder.TryRemoveFolder | packages/cli/src/activation-mutation.ts:481-489 | A success takes exactly the legacy directory out of the tree; a removal that happened although a hook then threw is told apart from one that did not; without failures an empty directory is removed |
| MutationStop.CheckPlan | packages/cli/src/init-mutation.ts:355-377 | The first look refuses with a delivered report, or establishes that the plan fits the tree; without failures it goes on exactly on the tree the plan was made for |
| MutationStop.LookAgain | packages/cli/src/init-mutation.ts:453-510 | The second look finds the run still ready to apply and the tree untouched, or ends it with a delivered report. Without failures it ends the run only when interrupted, and the run is then judged recovered |
| MutationCurrent.FirstLook | packages/core/src/init.ts:365-385 | An undisturbed observation has no mismatch exactly if every managed path is as planned and no stage is there |
| MutationCurrent.SecondLook | packages/cli/src/init-mutation.ts:254-290 | After preparation the run's own directories are excused and nothing else differs |
| MutationRecheck.RecaptureReports | packages/cli/src/init-mutation.ts:254-270 | A path escapes the second look exactly if it is as expected, or was expected to be missing and carries the identity (possibly none) the run has for it |
| MutationRecheck.SymlinkEscapesRecapture | packages/cli/src/init-mutation.ts:254-270 | A symlink that appeared at a path expected to be missing is not reported |
| MutationRecheck.ChangedOwned | packages/cli/src/init-mutation.ts:272-290 | Reports only owned directories, each once; without failures none that the run still owns |
| MutationPlan.NoMismatch | packages/core/src/init.ts:365-385 | Without a mismatch every precondition is true of the tree and no stage exists |
| MutationFinish.CleanupAll | packages/cli/src/init-mutation.ts:189-252 | Cleanup touches no destination; an empty residue means that every stage and every created directory is gone; without failures it is empty |
| MutationFinish.Abandon | packages/cli/src/init-mutation.ts:432-451 | Giving up before apply leaves every destination as it was, and without residue the whole surroundings |
| MutationCleanup.CleanupOwned | packages/cli/src/init-mutation.ts:189-252 | Each owned directory is gone or in the residue, and nothing that is not owned changes; without failures the residue is empty if each holds only what cleanup removes |
| MutationSteps.PrepareItem | packages/cli/src/init-mutation.ts:392-431 | Fills one stage: the destination is untouched; when it succeeds the effect can be carried out and undone |
| MutationSteps.ApplyItem | packages/cli/src/init-mutation.ts:512-539 | Moves exactly one effect to its planned side, or leaves it; a success is really applied, and every state on the way kept the promise; the marker may be applied only when all others are |
| MutationSteps.RestoreItem | packages/cli/src/init-mutation.ts:541-580 | Brings exactly one effect back from its copy, or leaves it as it was; never tears the destination |
| MutationStore.Store.MakeDirectory | packages/cli/src/init-mutation.ts:111-114 | A success adds exactly one new directory; a failure leaves the tree as it was, or adds a directory whose identity could not be read and records it as the orphan; without failures it succeeds where nothing is and the parent is there |
| MutationStore.Store.WriteFileExclusive | packages/cli/src/init-mutation.ts:87-107 | Never replaces anything; a success is the whole file with the mode the file system gives it, a failure may leave a file with other contents; without failures it succeeds where the name is free |
| MutationStore.Store.Rename | packages/cli/src/init-mutation.ts:117-117 | The staged file with its identity takes the destination's place in one step, or nothing changes |
| MutationStore.Store.RemoveFile | packages/cli/src/init-mutation.ts:118-120 | Removes one file or nothing; an absent file is no error, a directory is |
| MutationStore.Store.RemoveDirectory | packages/cli/src/init-mutation.ts:121-121 | Removes one empty directory or nothing |
| MutationStore.Store.Observe | packages/cli/src/init-observation.ts:52-96 | An observation is true of the tree or says that nothing could be confirmed; without failures it is the complete one |
| StagePaths.BesideNameInjective | packages/core/src/init.ts:337-342 | Different destinations have different stages |
| StagePaths.BesideNameParent | packages/core/src/init.ts:337-342 | A stage lies in the directory of its destination |
| MarkerSpan.FindMarkerSpan | packages/core/src/activation.ts:381-426 | The byte loop computes the span that is defined line by line |
| MarkerSpan.SpanMeaning | packages/core/src/activation.ts:381-426 | Over arbitrary bytes: absent exactly if no line is marked; a section exactly if one begin line is followed by one end line and no other line is marked; malformed otherwise |
| MarkerSpan.SpanCoversLines | packages/core/src/activation.ts:381-426 | The span covers exactly the section's whole lines, and the text is what precedes it, the span, and what follows |
| MarkerSpan.ContainsAscii | packages/core/src/activation.ts:366-379 | Finds the needle exactly if it occurs |
| ActivationAgents.BlockStays | packages/core/src/activation.ts:843-870 | Once placed, the block is found again as the only section, placing it again changes nothing, the rest of the text is unchanged, and no legacy marker appears unless the packaged block brings one |
| ActivationSnapshot.SnapshotRoundTrip | packages/core/src/activation.ts:473-523 | Validation reads an identity from bytes exactly if the identity is valid and the bytes are what the printer prints for it and these files |
| Cksum.CrcTable | packages/core/src/activation.ts:440-453 | Every entry of the table is what eight shifts of the register make of its index at the top |
| Cksum.PosixCksum | packages/core/src/activation.ts:458-471 | The table-driven loops over the octets and the length end in the complement of the remainder of dividing message, length and 32 zeros by the generator polynomial |
| Cksum.TableFeedsOctet | packages/core/src/activation.ts:455-463 | One table lookup does what feeding eight bits does |
| Cksum.FeedLeavesRemainder | packages/core/src/activation.ts:458-471 | Feeding octets into an empty register is polynomial division, bit by bit, of the message times x^32 |
| Cksum.LengthOctetsMeaning | packages/core/src/activation.ts:458-471 | The length octets are its base-256 digits, lowest first, none superfluous |
| JsonGrammar.ScanMeaning | packages/core/src/goal-plan-artifacts.ts:369-525 | The scanner finds no fault exactly in one JSON value of RFC 8259 between blanks, not nested deeper than the limit, in which no object repeats a decoded member name |
| JsonScan.ScanJsonSafety | packages/core/src/goal-plan-artifacts.ts:369-525 | The index-driven scanner, with nested loops and one shared position, reports exactly the first fault of the recursive definition |
| JsonScan.Scanner.ReadAnyValue | packages/core/src/goal-plan-artifacts.ts:444-518 | Reads one value at the index: index and failure afterwards are those of the definition |
| JsonScan.Scanner.ReadKeyOrString | packages/core/src/goal-plan-artifacts.ts:390-442 | Reads and decodes one string with its escapes, or fails with the definition's fault |
| JsonScan.Scanner.ReadObjectTail | packages/core/src/goal-plan-artifacts.ts:449-476 | Members, names in use and separators of an object, as the definition has them |
| JsonScan.Scanner.ReadArrayTail | packages/core/src/goal-plan-artifacts.ts:477-496 | Elements and separators of an array, as the definition has them |
| Topology.ValidateTopology | packages/core/src/goal-plan-artifacts.ts:894-939 | The three-colour search reports the defined fault, and a reported cycle is a real cycle of dependencies |
| Topology.TopologyMeaning | packages/core/src/goal-plan-artifacts.ts:894-939 | Accepted exactly if every dependency is a node other than its own and the nodes have a topological order; each fault names what is wrong |
| Topology.CycleExcludesOrder | packages/core/src/goal-plan-artifacts.ts:894-939 | A graph with a cycle has no topological order |
| Topology.Search.Visit | packages/core/src/goal-plan-artifacts.ts:921-937 | A visit ends in a real cycle, or with everything the node leads to in reverse finishing order |
| TextOrder.CompareUtf8 | packages/core/src/review/path.ts:101-112 | The sign of the result is the order of the encoded octets, zero exactly for equal encodings |
| TextOrder.SortIsCanonical | packages/core/src/goal-plan-artifacts.ts:1878-1900 | Lists with the same entries and differing keys sort to the same list |
| TextOrder.SortedAreEqual | packages/core/src/goal-plan-artifacts.ts:783-829 | Two strictly sorted lists with the same entries are equal |
| GoalPlanSafety.ParsedIffSafe | packages/core/src/goal-plan-artifacts.ts:527-556 | A document is parsed exactly if it is small enough, decodes, and is safe JSON in the sense of the grammar |
| GoalPlanSafety.ReviewedDocumentsAreSafe | packages/core/src/goal-plan-artifacts.ts:1728-1810 | Behind an accepted Review all three documents are safe JSON within their limits |
| GoalPlanBinding.ReviewBindsEverything | packages/core/src/goal-plan-artifacts.ts:1728-1810 | A Review is accepted exactly if its structure is valid, it names the digest of the Manifest and its sources and coverage, and the Manifest is bound to its Declaration, graph and every source |
| GoalPlanBinding.ManifestMeaning | packages/core/src/goal-plan-artifacts.ts:1445-1526 | A Manifest is accepted exactly if some Declaration of the bound digest has the same plan and graph, and every reviewed source and readiness digest is that of the given bytes |
| GoalPlanBinding.MatchMeaning | packages/core/src/goal-plan-artifacts.ts:1407-1438 | Declaration and Manifest match exactly if plan identity and node graph (stories and dependency sets) are the same |
| GoalPlanBinding.SameBindingsMeaning | packages/core/src/goal-plan-artifacts.ts:1707-1718 | Comparing sorted bindings by length and look-up is equality |
| GoalPlanBinding.ReviewedGraphsAreSound | packages/core/src/goal-plan-artifacts.ts:1445-1526 | Both graphs behind an accepted Manifest have a topological order and no dangling dependency |
| GoalPlanWriting.NodesRoundTrip | packages/core/src/goal-plan-artifacts.ts:941-1064 | Written nodes are read back as themselves exactly if they are proper: sorted, distinct, within limits, with an acyclic graph |
| GoalPlanComplete.DeclarationExportMeaning | packages/core/src/goal-plan-artifacts.ts:1917-1957 | The Declaration exporter accepts exactly the inputs that are good as they are given, before sorting |
| GoalPlanComplete.ManifestExportMeaning | packages/core/src/goal-plan-artifacts.ts:1970-2042 | The same for the Manifest exporter, whose result passes its own validation |
| GoalPlanTwins.TwinsAreNotSorted | packages/core/src/goal-plan-artifacts.ts:811-823 | Two concrete paths that differ only in an unpaired surrogate: each binding is proper, both together are no good list |
| GoalPlanTwins.TwinsAreRejected | packages/core/src/goal-plan-artifacts.ts:1878-1893 | No Manifest is exported for an input that lists both |
| GoalPlanCanonical.ManifestIsCanonical | packages/core/src/goal-plan-artifacts.ts:1970-2042 | Reordering nodes, dependencies or reviewed sources leaves the exported bytes as they are |
| GoalPlanCanonical.ReviewExportMeaning | packages/core/src/goal-plan-artifacts.ts:2055-2137 | For a valid Manifest a Review is exported exactly if the reviewer's fields and the size are good, and the exported Review is accepted |
| GoalPlanExport.ExportDeclaration | packages/core/src/goal-plan-artifacts.ts:1917-1957 | The imperative exporter computes the specified outcome, whose meaning is `DeclarationExportMeaning` |
| GoalPlanExport.ExportManifest | packages/core/src/goal-plan-artifacts.ts:1970-2042 | The imperative exporter computes the specified outcome, whose meaning is `ManifestExportMeaning` |
| GoalPlanExport.SortedReviewedSources | packages/core/src/goal-plan-artifacts.ts:1878-1893 | Rejects repeated paths, sorts the others |
| GoalPlanCanonical.ExportReview | packages/core/src/goal-plan-artifacts.ts:2055-2137 | The imperative exporter computes the specified outcome, whose meaning is `ReviewExportMeaning` |
| GoalPlanReaders.ReadReviewedSources | packages/core/src/goal-plan-artifacts.ts:783-829 | The loop with its set of seen paths accepts exactly the lists, within the limit, in which every entry is a binding and the paths strictly increase |
| GoalPlanReaders.ReadDependsOn | packages/core/src/goal-plan-artifacts.ts:838-887 | The loop accepts exactly distinct node references, sorted where the artifact demands it |
| GoalPlanReaders.ReadDeclarationShape | packages/core/src/goal-plan-artifacts.ts:941-1064 | The loop over nodes with seen set, previous reference and edge count accepts exactly what the definition does |
| GoalPlanReaders.ReadManifestShape | packages/core/src/goal-plan-artifacts.ts:1120-1292 | The same for a Manifest |
| GoalPlanReaders.MatchDeclarationToManifest | packages/core/src/goal-plan-artifacts.ts:1407-1438 | The map look-ups decide the match whose meaning is `MatchMeaning` |
| GoalPlanReaders.ValidateManifest | packages/core/src/goal-plan-artifacts.ts:1445-1526 | The validator computes the outcome whose meaning is `ManifestMeaning`, with the first error in the source's order |
| GoalPlanReaders.ValidateReview | packages/core/src/goal-plan-artifacts.ts:1728-1810 | The validator computes the outcome whose meaning is `ReviewBindsEverything`, with the first error in the source's order |
| RecordRaces.RunHolds | packages/cli/src/review-records.ts:432-536 | Every reachable state of any number of interleaved calls keeps the machine's invariant |
| RecordRaces.RecordStays | packages/cli/src/review-records.ts:432-536 | No step replaces or changes a record; only its own writer can take it back, before reporting success |
| RecordRaces.SeenIsWhole | packages/cli/src/review-records.ts:464-514 | In every state of every run a visible record has the complete bytes of the call that wrote it |
| RecordRaces.SuccessIsKept | packages/cli/src/review-records.ts:432-536 | A reported success names a record with exactly the caller's bytes |
| RecordRaces.KeptForever | packages/cli/src/review-records.ts:432-536 | Such a record is in every later state, unchanged |
| RecordRaces.SuccessesDiffer | packages/cli/src/review-records.ts:505-531 | No two calls succeed with the same name |
| RecordRaces.NumbersHaveNoGap | packages/cli/src/review-records.ts:505-531 | If no look at a new record fails, the taken numbers have no gap in any state of a run |
| RecordRaces.UndoAndGaps | packages/cli/src/review-records.ts:494-526 | Taking a number back leaves no gap in any later state, until another record is taken back, if and only if no higher number is taken and no call is already trying a higher one |
| RecordRaces.UndoKeepsOrder | packages/cli/src/review-records.ts:494-526 | The state after taking a number back is again free of gaps, with no call past a free number, under the same condition |
| RecordRaces.RunInOrder | packages/cli/src/review-records.ts:494-526 | All states of a run are in order if and only if this condition holds whenever a record is taken back |
| RecordGap.UndoCanLeaveGap | packages/cli/src/review-records.ts:494-526 | A run of two calls in which the highest number is taken back, there is no gap then, and the other call takes the next number and leaves one |
| RecordRaces.FirstConfirmationWins | packages/cli/src/review-confirm-write.ts:104-159 | Without a fault, when all calls for one target have answered, exactly one has written; equal fingerprints get the winner's deferred list, all others a collision |
| RecordRaces.LaterConfirmationsLose | packages/cli/src/review-confirm-write.ts:104-159 | A target that was there before is never written, and every call sees its old bytes |
| RecordCalls.Directory.CreateNewRecord | packages/cli/src/review-records.ts:432-536 | The imperative call, one file operation after the other with others in between, is a run of the machine; a created record is in place with its bytes |
| RecordCalls.Directory.WriteConfirmation | packages/cli/src/review-confirm-write.ts:104-159 | The imperative call is a run of the machine and answers what the machine's result means |
| RecordCalls.CreatedIsKept | packages/cli/src/review-records.ts:432-536 | What was created is in place with exactly its bytes in every later state |
| ArtifactWriter.Folder.WriteArtifact | packages/cli/src/review-goal-plan.ts:208-258 | Never changes an entry; created means it was free; created or matched means the exact bytes are in place; a conflict really differs; an equal file matches |
| ArtifactWriter.Folder.WriteArtifacts | packages/cli/src/review-goal-plan.ts:272-359 | What is reported as written is a prefix of the plan that is really in place, all of it on success; a conflict names the first artifact that differs. In a calm folder the run succeeds if and only if each artifact is accepted after those before it, and then adds exactly the missing ones |
| ArtifactWriter.AcceptedIff | packages/cli/src/review-goal-plan.ts:272-359 | With different names that is so if and only if each name is free or has exactly the planned bytes, not too many to be compared |
| ArtifactWriter.SecondRunChangesNothing | packages/cli/src/review-goal-plan.ts:272-359 | After a run that wrote everything, another one writes everything and changes nothing |
| SupersedesChain.SupersedesConflicts | packages/core/src/review/revision-content.ts:142-196 | The two loops with their memory of visited ids report bad claims first and then exactly the revisions that lead round a cycle |
| SupersedesChain.ConflictsMeaning | packages/core/src/review/annotation-logic.ts:290-338 | No conflict exactly if nothing is superseded twice or by itself and every chain comes to an end |
| RevisionRuns.ProblemsMeaning | packages/core/src/review/annotation-state.ts:162-189 | Among requests with differing ids the page reports no problem exactly if chains and targets are in order |
| RevisionRuns.AppendHolds | packages/core/src/review/annotation-state.ts:271-278 | Appending a valid new request keeps the page in order exactly if its target is on the page, exported and not superseded |
| RevisionRuns.AddDraftHolds | packages/core/src/review/annotation-state.ts:271-278 | The same for a draft that was accepted |
| RevisionStray.StrayDraftBreaksPage | packages/core/src/review/annotation-state.ts:271-278 | A concrete draft that names an unknown request: added to the empty page, which is then out of order |
| RevisionRuns.EditDraftHolds | packages/core/src/review/annotation-state.ts:288-305 | Changing a draft keeps the page in order |
| RevisionRuns.EditExportedHolds | packages/core/src/review/annotation-state.ts:308-330 | A new version of an exported request keeps the page in order |
| RevisionRuns.MarkHolds | packages/core/src/review/annotation-state.ts:341-349 | Marking as exported keeps the page in order |
| RevisionRuns.RestoreHolds | packages/core/src/review/annotation-state.ts:371-414 | A sheet that is accepted leaves the page in order |
| RevisionHistory.HistoryHolds | packages/core/src/review/annotation-state.ts:271-414 | Over every sequence of actions ids differ, targets exist and are exported, and chains are in order |
| RevisionHistory.ExportedForever | packages/core/src/review/annotation-state.ts:271-414 | Over every sequence of actions an exported request keeps its place and its contents |
| RevisionHistory.OrderForever | packages/core/src/review/annotation-state.ts:271-349 | Without restored sheets every version stands behind the one it supersedes |
| RevisionHistory.EditExportedKeepsCount | packages/core/src/review/annotation-state.ts:308-330 | A new version takes the place of the old one: as many current requests as before |
| RevisionHistory.RestoreTwice | packages/core/src/review/annotation-state.ts:371-414 | Restoring the same sheet again changes nothing and skips every revision of it |
| RevisionRestore.RestoreSheet | packages/core/src/review/annotation-state.ts:371-414 | The loops sort a sheet into new, known and conflicting revisions as the definition has it |
| RevisionState.TruncatedFits | packages/core/src/review/annotation-logic.ts:107-122 | A text within the limit stays; a longer one becomes its longest start that leaves room for the marker, without a byte order mark in front, and the marker |
| Quarantine.WithDanglingSuccessors | packages/core/src/review/annotation-state.ts:191-208 | The worklist ends with exactly what can be reached from the rejects, and has a message exactly if something was added |
| Quarantine.QuarantineIsLeast | packages/core/src/review/annotation-state.ts:191-208 | That set is the least one that contains the rejects and the successors of its members |
| Quarantine.LoadState | packages/core/src/review/annotation-state.ts:212-262 | Loads what is defined, and is all right exactly if there is no message |
| Quarantine.LoadedHolds | packages/core/src/review/annotation-state.ts:212-262 | Whatever the storage holds, the loaded page is in order |
| Quarantine.KeptIsSound | packages/core/src/review/annotation-state.ts:191-208 | What is not set aside has no problem of its own, and its target is not set aside either |
| Quarantine.SavedIsLoaded | packages/core/src/review/annotation-state.ts:448-459 | A saved page is loaded without a message exactly if it was in order, and is then the same page |
| RevisionImport.ImportSheet | packages/cli/src/review-import.ts:147-327 | The loops decide as the definition does, with the first refusal in the source's order |
| RevisionImport.ValidateRecordSet | packages/core/src/review/revision-content.ts:251-299 | Accepts exactly a set with one content for each id and chains in order |
| RevisionImport.ImportKeepsConsistent | packages/cli/src/review-import.ts:249-327 | An accepted sheet leaves a valid set without waiting targets valid and without waiting targets |
| RevisionImport.ImportsStayConsistent | packages/cli/src/review-import.ts:249-327 | So does every sequence of sheets whose records are kept in import order |
| RevisionOrder.OrderDoesNotMatter | packages/cli/src/review-records.ts:161-226 | Whatever the order in which the records are read, the set is valid or not, targets are known or not, and every sheet meets the same decision, with the same reason to refuse or the same records stored |
| RevisionOrder.SortedImportsStayConsistent | packages/cli/src/review-import.ts:249-327 | Every sequence of sheets keeps a consistent set consistent, however the records are sorted before each import |
| RevisionImport.StoredIfNew | packages/cli/src/review-import.ts:314-327 | A record is stored exactly if the sheet holds an id that is not imported yet |
| RevisionImport.WaitingSetCanCycle | packages/cli/src/review-import.ts:283-312 | Two records that supersede each other: a valid set, an accepted sheet, an invalid set |
| RevisionImport.ImportKeepsValid | packages/cli/src/review-import.ts:283-312 | If no imported revision waits for an id of the sheet, the set stays valid |
| RevisionWaiting.ImportKeepsValidIff | packages/cli/src/review-import.ts:283-312 | An accepted sheet leaves the set valid exactly if no stored revision waits for an id of the sheet from which a chain leads back to it |
| RevisionWaiting.KnownTargetsSuffice | packages/cli/src/review-import.ts:283-312 | A caller who finds every superseded id stored need look no further |

## Left out

What the contracts take from outside:

- Opaque helpers of the goal plan are fields of `GoalPlanModel.World`: the decoding of bytes as UTF-8, `JSON.parse` of a text the scanner has passed, `JSON.stringify` with the final line feed, SHA-256, and the regular expressions for paths, identifiers, names and times. The completeness and canonicity theorems assume of them that a written value is read back if it is within the depth limit, and that a digest looks like one.
- Digests of the mutation part are an injective constructor, not SHA-256.
- Identifiers, clocks and random numbers are parameters: the seed of a plan (hexadecimal digits), ids and times of requests, the fresh name of a temporary file.
- Observations are true of the tree or report that nothing could be confirmed; a tree holds regular files and directories, and other kinds of entries appear only in observations. `Faithful` (a directory lists the names of what is in it, sorted as UTF-16) and `Opens` (a directory that a run created can be read and searched) are assumed where a theorem needs a complete look.
- Below a directory that cannot be read Activation's observer reports paths as missing, and `init`'s observer cannot confirm a file that is not UTF-8. The modelled observer sees what is there: below such a directory it makes no difference, since an unreadable directory refuses the plan, and a file that is not UTF-8 is refused by the source where the model goes on.
- No other process writes into the tree while an executor runs; the record directory and the artifact folder do have other writers.
- Conflict and diagnostic messages, exit codes and rendered output are not modelled; a result carries its kind and its paths.

What the contracts say less than the source might suggest:

- ActivationCommand.Activate: the two theorems about runs without failures need a tree in which no stage of the plan exists and nothing but managed paths lies in the legacy directory, and a faithful listing; the target's second identity is a parameter.
- ActivationMutation.ExecuteActivationMutation: the mode of the legacy directory is not modelled, and a directory that is made again has a new identity.
- InitMutation.ExecuteInitMutation: the bits of the umask are taken off a mode as a set difference, and whether the root is the planned one is a parameter.
- MutationStore.Store.Observe: does not treat a file that is not UTF-8 as unconfirmable, as `init`'s observer does.
- RecordRaces.FirstConfirmationWins: holds for runs without a fault; with faults `RecordRaces.RecordStays` and `RecordRaces.SuccessIsKept` are what remains.
- RevisionHistory.HistoryHolds: drafts added directly supersede nothing, as on the page; for other callers `RevisionRuns.AddDraftHolds` has the exact condition.
- RevisionState.TruncatedFits: a text of the page has no unpaired surrogates, which encoding would replace.
- Quarantine.SavedIsLoaded: the storage's JSON text and its schema version are one constructor.

What the repository does beyond this model:

- Signal handlers, scratch directories and acquisition of packaged files for `codex activate`; rendering of diffs.
- `computeEffectiveRevisions`, confirmation record parsing, response records and the listing of the records directory.
- Sheet text (fences, export, summaries), locators and quotes taken from a rendered document, and the page's user interface.
- The union of dependencies and the lookup of stories in `review goal-plan` before its artifacts are exported.
- The validators for stories, readiness, verification and release, which read documents and compare fields.
