# filecloud, modelled

filecloud is a content-addressed file synchroniser for several devices. A server keeps immutable
objects (blocks, files, directories, commits) and, for each library, a Head that moves by
compare-and-set. A client captures a worktree as a commit, merges it with the Head when that has
moved on, and applies the result to the worktree through a write-ahead journal.

This project models five parts of it in Dafny and proves what they promise.

**Crash-safe apply and rollback.** `FileSystem` is a file system of inodes with one place each.
`FsJournal` is the action journal with its recovery, `RemovalPlan` the plan for removing a
directory, `PreserveChain` the chain that preserves creations of unknown identity together with the
journal validator. `SyncApply` lists the steps of an application: moving captured entries aside,
installing the target, promoting conflict files, committing the base, cleaning up, and rolling back.
`SyncInvariant` says what every step keeps; `SyncSteps`, `SyncInstall`, `SyncFinish` and
`SyncRollback` prove it step by step; `SyncPaths` says what target paths lead to during a rollback;
`SyncSafety` and `SyncProgress` draw the conclusions; `SyncErasure` refines the one step that is
many removals; `SyncClient` is the program itself, whose loops can be cut by a crash before any
effect and started again.

**When a rollback cannot finish.** `SyncBlocked` proves an exact condition for it. The rollback
visits every recorded path of the target and stops where something is visible but no inode was
recorded. That happens when it is begun, by unbinding, while an entry is not moved aside yet and the
target has an entry of the same name at the top; most simply when the checkout is only pending. It
then stops at the same place each time it is tried. Once every entry is moved aside this cannot
happen.

**When an application cannot finish.** `SyncSpoilt` does the same for going forward. Unbinding first
removes what is at temporary names, but the rows keep the inodes they recorded. When it is cut there
and the checkout is carried on after all, a directory that is gone is looked for and never made
again, and a file is made again but its inode is refused, since the row has one. From then on no call
reaches the new base. It can still be given up, unless a file was made again: that file stops the
cleanup of temporary names too, and neither way ends.

**Three-way merge.** `TreeMerge` specifies the merge of directory trees, `MergeLaws`, `MergeFates`,
`MergeTracks`, `MergeRequests` and `MergeFallbacks` prove its laws and that no edit is lost,
`MergeTable` says what it decides for every entry and that Local steps aside only in a conflict,
`MergeOutcome` draws this together for the whole merge,
`Lineage` follows captured files through any number of merges and `MergeTimes` their times,
`LineageExact` says exactly when one merge keeps them faithful, `RetakenCase` exhibits merges that do
not, `TreeMerger` is the program. `PendingMerge`, `PendingReplay` and
`PendingRebuild` are the pending record, its replacement after Head conflicts and its replay;
`PendingOutcome` says what the replaced tree holds of both sides;
`PendingWorld` shows that their assumptions can be met. `AncestorSearch` is the budgeted ancestor
search.

**Restore planner.** `RestoreOverlay` specifies the overlay, `RestorePlanner` is the stateful
recursion, `RestoreAccounting` proves its statistics exact, `RestorePlan` is the whole plan and the
validator of its record.

**Publication.** `ObjectGraph`, `HeadValidation`, `Publication`, `GarbageCollector`, `Collections`
and `History` cover the validation and movement of Head, roles, collection and paging over whole
runs of the server; `Snapshots` and `PublishedSnapshots` say what that means for commits, names, files
and blocks.

**Codecs and names.** `Bytes`, `ByteBuffer`, `RecordReader`, `CandidateHistory`, `RestorePreview` and
`ConflictProvenance` are the binary codecs, `CanonicalJson` the canonical printers, `Text`, `Utf8`,
`Paths`, `ConflictNames`, `ConflictChain`, `ConflictNext` and `ConflictUtf8` the conflict names and
their chain;
`NameRules` shows that what they suppose of name rules can be met.

Conventions. A database transaction or one system call is one step; a crash is a stop after any
step, since only what is stored survives. A journaled action counts as done once its intent is
stored, because recovery carries it out before anything else; `FsJournal` justifies that. An inode
number is not used again within an application. Content
hashes are taken as injective, so in merge and planner an entry holds the tree in place of its id.
Strings are byte strings, times are numbers in the order of their fixed-width texts, and name
checks, case folding and time formats are parameters.

Where the code and its comments differ the code is followed. Checks of the code that can never
fail (encoding again and comparing, cycles of a content-addressed graph, ambiguous states) are
asserted unreachable.

## Model

| member | source | states |
|---|---|---|
| `FsJournal.Client.Complete` | cmd/filecloud/client_fs_actions.go:712-953 | carrying out one journaled action ends done only if its directories are there and its entry is where it is to be acted on or where it ends, and then what the action is for is so, told by places, kinds, contents and times alone: a creation is there and empty, a rename is at its new place with its content and nobody at the old one, a removal's place is free, a set time is the inode's time with its content kept, a restored promotion's directory has the given time; otherwise it changes nothing or makes a lost temporary again; cut, it is at one of the named points |
| `FsJournal.CutResumes` | cmd/filecloud/client_fs_actions.go:712-953 | an action cut after its system call or between call and record, outside the create-to-identity window, ends the same when it is carried on |
| `FsJournal.RecoveryEndsTheSame` | cmd/filecloud/client_fs_actions.go:1151-1201 | a journal cut anywhere outside that window can be carried on, and recovery gives the same file system and the same completed journal as the uncut run |
| `FsJournal.CrashThenRecover` | cmd/filecloud/client_fs_actions.go:1151-1201 | the same for every cut of a whole run from the first action on |
| `FsJournal.SecondRecoveryIdle` | cmd/filecloud/client_fs_actions.go:1151-1201 | recovering a recovered journal changes nothing |
| `FsJournal.OthersUntouched` | cmd/filecloud/client_fs_actions.go:712-953 | an action changes no inode but its own, apart from directory times, so nothing occupied is ever replaced |
| `FsJournal.FinishedAchieves` | cmd/filecloud/client_fs_actions.go:712-953 | the specified end of every action shows just that |
| `FsJournal.ReadyMeans` | cmd/filecloud/client_fs_actions.go:712-953 | which actions go through, by what is at their places |
| `FsJournal.AttrStands` | cmd/filecloud/client_fs_actions.go:1151-1201 | what an inode is, holds and has for a time stands through a run until an action touches it |
| `FsJournal.TimeStands` | cmd/filecloud/client_fs_actions.go:870-903 | a time set by an action of a run, on its inode or on the directory a promoted file was restored to, is still there at the end unless a later action touched that inode |
| `FsJournal.FinishKeepsOrder` | cmd/filecloud/client_fs_actions.go:712-953 | a file system with one inode per place stays one through any journal |
| `FsJournal.Client.RecoverActions` | cmd/filecloud/client_fs_actions.go:1151-1201 | the recovery loop reaches exactly the state of the specified run, or a cut of it |
| `RemovalPlan.PlanRemoval` | cmd/filecloud/library_sync.go:2997-3086 | the written plan is the scanned entries deepest first, each once, and last the directory |
| `RemovalPlan.PlanRemovesDirectory` | cmd/filecloud/library_sync.go:2977-3104 | every action of the plan finds its entry empty when its turn comes; afterwards exactly the directory and what was below it are gone and only directories that lost an entry have new times |
| `PreserveChain.ValidateJournal` | cmd/filecloud/client_fs_actions.go:1010-1149 | the validator accepts exactly the journals in which every preserve row belongs to one given-up creation, attempts are contiguous and distinct, and names are those of the sequence |
| `PreserveChain.OneLiveTail` | cmd/filecloud/client_fs_actions.go:1094-1147 | in an accepted journal a chain has at most one row that is not a collision, and it is the last attempt |
| `PreserveChain.TailExists` | cmd/filecloud/client_fs_actions.go:1094-1147 | and it has one |
| `PreserveChain.GivenUpValid` | cmd/filecloud/client_fs_actions.go:573-637 | giving up a creation of unknown inode and intending the first preserve name keeps the journal acceptable |
| `PreserveChain.AdvancedValid` | cmd/filecloud/client_fs_actions.go:639-693 | closing a collision and intending the next name keeps it acceptable |
| `PreserveChain.CompletedValid` | cmd/filecloud/client_fs_actions.go:712-760 | completing the live tail keeps it acceptable |
| `PreserveChain.Preserver.GiveUp` | cmd/filecloud/client_fs_actions.go:573-637 | what is at the place of an unknown creation is only renamed: it ends at the first free recovery name and everything else in the file system is as before |
| `PreserveChain.Preserver.CompletePreserve` | cmd/filecloud/client_fs_actions.go:639-693 | the same however often the chain is cut and carried on |
| `PreserveChain.FirstIsUnique` | cmd/filecloud/client_fs_actions.go:639-693 | no two histories of cuts can leave the inode at different names |
| `SyncSafety.InitialHolds` | cmd/filecloud/library_sync.go:1350-1410 | the invariant of an application holds before it starts |
| `SyncSafety.NoStepFails` | cmd/filecloud/library_sync.go:1097-1310 | in every reachable state, whatever step the program takes, forward or giving up, the places it needs are free and what it acts on is there |
| `SyncSafety.StepKeeps` | cmd/filecloud/library_sync.go:1097-1310 | every step of recording, capturing, installing, promoting, finalizing, cleaning up, dropping temporary entries and rolling back keeps the invariant |
| `SyncSafety.RunKeeps` | cmd/filecloud/library_sync.go:1097-1310 | so it holds over every run, cut and re-entered anywhere |
| `SyncSafety.AllOrNothing` | cmd/filecloud/library_sync.go:1097-1310 | when a run is over, either the base is the old one and the worktree is exactly what was captured (every name, content and time), or the base is the new one and, looked up by path, every entry of the target is there with its kind, content and time, and nothing else is |
| `SyncSafety.CapturedIsSafe` | cmd/filecloud/library_sync.go:2055-2175 | before the base moves on, every captured file is there whole, at exactly one of its own name, its hidden name and its promoted path |
| `SyncSafety.OnePlace` | cmd/filecloud/library_sync.go:2055-2175 | and that place holds nothing else |
| `SyncSafety.NothingDestroyedEarly` | cmd/filecloud/library_sync.go:3106-3190 | no step removes a captured inode or changes a captured file before the base commit |
| `SyncSafety.RollbackSparesPromoted` | cmd/filecloud/library_sync.go:3247-3320 | although a promoted user file is recorded as what is installed at its path, a rollback never moves or removes it, because promotions are restored first |
| `SyncSafety.UnlessPutBackItWouldGo` | cmd/filecloud/library_sync.go:3398-3474 | and only because of that order: before the promotion is restored, the recorded identity matches the user file that the path leads to |
| `SyncRollback.PutBackIsAway` | cmd/filecloud/library_sync.go:3373-3474 | once promotions are restored, a path whose recorded inode is found there was not promoted |
| `SyncRollback.SeenIsOwn` | cmd/filecloud/library_sync.go:3398-3440 | whatever a recorded path with an identity leads to is that identity, so the comparison before undoing never fails |
| `SyncRollback.OneUndoSide` | cmd/filecloud/library_sync.go:3441-3466 | a path and the name it is undone under are never both taken |
| `SyncProgress.PrepareSides` | cmd/filecloud/library_sync.go:2055-2175 | of the visible and the hidden name of an entry not yet recorded as hidden, exactly one is taken, by the entry: the ambiguous branch is dead |
| `SyncProgress.CompletedStands` | cmd/filecloud/library_sync.go:2055-2175 | an entry recorded as hidden is at its hidden name, or is a file that was promoted from there |
| `SyncProgress.PromotionStands` | cmd/filecloud/library_sync.go:2671-2822 | a file to promote is at home exactly when its promotion was not recorded |
| `SyncProgress.TargetStands` | cmd/filecloud/library_checkout.go:779-1052 | whatever is at a target path while it is installed is its own inode, and recorded; if nothing is, that inode is at its temporary name, not made, or gone |
| `SyncProgress.TempNameFree` | cmd/filecloud/library_checkout.go:1464-1527 | a temporary name is looked up in a directory that is there, and is free unless the path's own inode bears it |
| `SyncProgress.ScanSucceeds` | cmd/filecloud/library_sync.go:1206-1225 | with everything installed and dated, the verification scan finds exactly the target |
| `SyncProgress.CleanSides` | cmd/filecloud/library_sync.go:3106-3190 | a hidden entry is at its hidden name, in the trash, or gone, never at both names |
| `SyncProgress.ReleaseSides` | cmd/filecloud/library_sync.go:3653-3703 | at the end of a rollback an entry is at exactly one of its two names |
| `SyncBlocked.StuckIsBlocked` | cmd/filecloud/library_sync.go:3398-3413 | the rollback, begun while pending or applying, stops with "no matching registered identity" only when some captured name is still visible and is recorded as a target path |
| `SyncBlocked.BlockedIsStuck` | cmd/filecloud/library_sync.go:3398-3413 | and then it does stop |
| `SyncBlocked.BlockedForever` | cmd/filecloud/library_sync.go:3373-3396 | a blocked rollback never ends, whatever is tried, and leaves the files as they are |
| `SyncBlocked.HiddenIsClear` | cmd/filecloud/library_sync.go:1325-1335 | a rollback begun after everything was moved aside is not blocked |
| `SyncBlocked.CutWhilePending` | cmd/filecloud/library_client.go:1028-1055 | the smallest input: one captured file that the target changes, given up by unbinding when only the target paths are recorded |
| `SyncBlocked.CutBeforeHiding` | cmd/filecloud/library_client.go:1028-1055 | the same after the plan is registered |
| `SyncSpoilt.DropSpoils` | cmd/filecloud/library_checkout.go:1464-1527 | removing a temporary entry spoils the application exactly when it is a directory or its inode was recorded |
| `SyncSpoilt.SpoiltNeverCommits` | cmd/filecloud/library_checkout.go:779-1052 | a spoilt application never reaches the new base and stays spoilt, whatever is tried and however it is cut |
| `SyncSpoilt.LitteredForever` | cmd/filecloud/library_checkout.go:1264-1281 | with a file made again whose inode is refused it never ends at all, not even by giving it up |
| `SyncSpoilt.CutGivingUp` | cmd/filecloud/library_client.go:1008-1055 | the smallest input (CaseIsSmall gives it): one new directory or file, cut after its inode is recorded, given up, and cut again after it is removed |
| `SyncSpoilt.CutAndCarriedOn` | cmd/filecloud/library_checkout.go:876-1052 | and for a file, carried on once more |
| `SyncErasure.PlanErases` | cmd/filecloud/library_sync.go:3088-3104 | removing a moved-aside directory by its written plan leaves exactly the files of the single step used in the runs above |
| `SyncErasure.CutPlanErases` | cmd/filecloud/library_sync.go:3088-3104 | also when the plan is cut anywhere and recovered |
| `SyncErasure.UnlinkErases` | cmd/filecloud/library_sync.go:3168-3175 | a moved-aside file is removed by one unlink |
| `SyncClient.Client.PrepareRecoveries` | cmd/filecloud/library_sync.go:2055-2175 | the loop, cut and repeated, ends with every entry hidden and recorded |
| `SyncClient.Client.MaterializeDirectories` | cmd/filecloud/library_checkout.go:745-874 | all directories of the target end installed and recorded |
| `SyncClient.Client.PromoteFiles` | cmd/filecloud/library_sync.go:2671-2822 | all promotions end in place and recorded as checkout paths |
| `SyncClient.Client.MaterializeFiles` | cmd/filecloud/library_checkout.go:757-1052 | all files of the target end installed with content and time |
| `SyncClient.Client.ApplyTarget` | cmd/filecloud/library_sync.go:1150-1300 | from any cut of an application, an uncut call reaches the base commit if and only if the application is not spoilt, and then every path of the target leads to an inode of its kind, content and time; otherwise it stays so |
| `SyncClient.Client.CleanUp` | cmd/filecloud/library_sync.go:2940-2975 | from any cut of the cleanup, an uncut call ends with the new base and nothing hidden left |
| `SyncClient.Client.BeginRollback` | cmd/filecloud/library_sync.go:1325-1335 | begun while applying, whether the rollback will be blocked is decided by the state before; it will not be once everything is hidden |
| `SyncClient.Client.RollBack` | cmd/filecloud/library_sync.go:3200-3245 | from any cut of a rollback, and from a checkout that is only pending, an uncut call ends with the captured worktree if and only if the rollback is not blocked; otherwise it stays blocked |
| `SyncClient.Client.Continue` | cmd/filecloud/library_sync.go:1097-1310 | started on whatever a crash left, an uncut call ends all-or-nothing if and only if it stood neither in a spoilt application nor in a blocked rollback; a cut call leaves a state it can be started on again |
| `SyncClient.Client.Unbind` | cmd/filecloud/library_client.go:1008-1055 | giving up whatever a crash left, an uncut call ends all-or-nothing if and only if no refused file is in the way and the rollback is not blocked |
| `SyncClient.SpoiltIsRevocable` | cmd/filecloud/library_client.go:1008-1055 | so giving up a spoilt application ends exactly when no file was made again |
| `SyncClient.Client.FilesAreSafe` | cmd/filecloud/library_sync.go:1097-1310 | at any moment, in the middle of an action too, every captured file is whole at one of its places |
| `TreeMerger.Merger.LoadDirectory` | cmd/filecloud/library_merge.go:914-941 | the work counter counts a directory once and its entries each time, and a successful load never exceeds the limit |
| `TreeMerger.Merger.Merge` | cmd/filecloud/library_merge.go:518-619 | the recursive method computes the specified merge, its lineage changes and its fallback requests, or fails with the specified error or the budget |
| `TreeMerger.Merger.PlaceRequests` | cmd/filecloud/library_merge.go:743-852 | placing the requests computes the specified fallback directory and lineage |
| `TreeMerger.Merger.MergeRoots` | cmd/filecloud/library_merge.go:474-516 | the whole merge, exactly |
| `MergeLaws.MergeTakesRemote` | cmd/filecloud/library_merge.go:518-672 | merging (b, b, r) gives r and asks for no fallback |
| `MergeLaws.MergeTakesLocal` | cmd/filecloud/library_merge.go:518-672 | merging (b, l, b) gives l |
| `MergeLaws.MergeTakesBoth` | cmd/filecloud/library_merge.go:518-672 | merging (b, x, x) gives x |
| `MergeLaws.MergeCanonical` | cmd/filecloud/library_merge.go:518-619 | merging canonical trees gives a canonical tree |
| `MergeLaws.MergedNamesAreCanonical` | cmd/filecloud/library_merge.go:518-619 | the names of every merged directory are strictly sorted and distinct under case folding |
| `MergeFates.MergeFate` | cmd/filecloud/library_merge.go:518-672 | every Local file is where its lineage is followed to, or with a fallback request, unless Local left it or a directory above it as in Base |
| `MergeTracks.MergeKeepsRemote` | cmd/filecloud/library_merge.go:518-672 | every Remote file that Remote touched is at its own path with its own content |
| `MergeTracks.MergeApart` | cmd/filecloud/library_merge.go:518-672 | two Local files are never followed to the same path |
| `MergeTracks.MergeAntichain` | cmd/filecloud/library_merge.go:518-579 | no fallback request lies at or below the source of another |
| `MergeRequests.MergeSorted` | cmd/filecloud/library_merge.go:559-579 | a fallback request carries what Local has at its source, no other lineage change concerns that place, and moves only rename within a directory |
| `MergeTable.MergeDecides` | cmd/filecloud/library_merge.go:621-672 | at every path to which both sides have directories the merge has: Remote's entry where Local is as in Base, Local's where Remote is or both agree, a directory where both have one (with one side's time if it equals only that side, and the later one otherwise), the same file with the later time, and Remote's entry in every other case |
| `MergeTable.BothDirectories` | cmd/filecloud/library_merge.go:633-657 | what is a directory on both sides is one in the result, at every depth, whether Base had it or not |
| `MergeTable.MergeGrounded` | cmd/filecloud/library_merge.go:559-579 | a lineage move or a fallback request is only for an entry that both sides changed, differently, and that is neither a directory on both nor the same file; a lineage entry is dropped only where Local is as in Base and Remote is not |
| `MergeTable.MergeAnswers` | cmd/filecloud/library_merge.go:559-579 | and every such entry gets one |
| `MergeTable.MovedInConflict` | cmd/filecloud/library_merge.go:674-679 | a Local file that is followed elsewhere, or that a request covers, has such a conflict at its path or above |
| `MergeFallbacks.NoLocalContentLost` | cmd/filecloud/library_merge.go:518-852 | every Local file that Local touched is in the final tree with its content: at its own path or its conflict copy (as deep as before), or below the place a request was given in the fallback directory; for all inputs |
| `MergeFallbacks.NoLocalEditLost` | cmd/filecloud/library_merge.go:518-852 | and it is where its lineage leads, when no place in the fallback directory is taken back (see FaithfulUnlessRetaken) |
| `MergeFallbacks.NoRemoteEditLost` | cmd/filecloud/library_merge.go:518-852 | the final tree has every Remote file that Remote touched, at its own path |
| `MergeFallbacks.FilesStayApart` | cmd/filecloud/library_merge.go:518-852 | two Local files are followed to different places in the final tree |
| `MergeFallbacks.MergedTreeIsCanonical` | cmd/filecloud/library_merge.go:743-852 | the final tree, fallback directory included, is canonical |
| `Lineage.RoundKeepsTraces` | cmd/filecloud/library_merge.go:450-472 | one merge keeps lineage faithful: every surviving target is a file with the captured content, and distinct sources have distinct targets |
| `Lineage.GivenUpWasUntouched` | cmd/filecloud/library_merge.go:465-472 | a lineage entry is dropped only for a file that Local had left as in Base |
| `Lineage.RunKeepsTraces` | cmd/filecloud/library_merge.go:249-269 | any sequence of merges keeps it faithful |
| `Lineage.CapturedRun` | cmd/filecloud/library_merge.go:249-269 | from the captured snapshot on, across any sequence of merges none of which takes a fallback place back |
| `MergeTimes.MovedFileIsLocals` | cmd/filecloud/library_merge.go:518-852 | a Local file that a merge moves, beside Remote's or into the fallback directory, is there the entry that Local had, time included |
| `MergeTimes.MovedKeepsTime` | cmd/filecloud/library_merge.go:450-472 | so a trace that agreed in content and time and got another target still agrees after the merge |
| `MergeOutcome.LocalFileGoes` | cmd/filecloud/library_merge.go:518-852 | every Local file that Local touched is in the final tree with its content: at its own path, or, only in a conflict at its path or above, at the path with one other name or in a fallback directory |
| `MergeOutcome.TreesDecide` | cmd/filecloud/library_merge.go:474-516 | the final tree decides every entry outside its fallback directory by the table |
| `MergeOutcome.FallbackDirectory` | cmd/filecloud/library_merge.go:743-852 | the fallback directory has the first numbered name that can serve; what was there stays, each request is there once under a new name, nothing else is, and its time is the latest of all |
| `MergeOutcome.MergeKeepsBoth` | cmd/filecloud/library_merge.go:474-516 | all of this for the whole merge, told by the four trees alone |
| `LineageExact.FaithfulUnlessRetaken` | cmd/filecloud/library_merge.go:799-821 | with the lineage of all files, a merge keeps it faithful if and only if no fallback request is for a place that an earlier request of the same merge was given; then, and only then, two files share a target or one points at nothing |
| `LineageExact.NewSeedIsSafe` | cmd/filecloud/library_merge.go:725-741 | that cannot happen when no entry of a fallback directory's name is in conflict and Local has nothing in it named after the first twelve digits of the seed commit: a condition on the three trees alone |
| `RetakenCase.PlaceTakenBack` | cmd/filecloud/library_merge.go:725-852 | it does happen: a conflict at the top and a conflict inside a fallback directory, over a name that the first one is given, for every such configuration |
| `RetakenCase.ItHappens` | cmd/filecloud/library_merge.go:725-852 | one such merge with concrete names, trees and rules |
| `PendingMerge.PendingMergeSequence` | cmd/filecloud/library_sync.go:390-455 | a record is accepted exactly when its commits are linked: own captured commit, each merge on top of the commit before with a Head not met before, at most 1024, ending at the expected Head and base |
| `PendingMerge.VerifyPending` | cmd/filecloud/library_sync.go:457-466 | linked and with consistent statistics, exactly: counts in range, and confirmation required from 101 deletions on or a tenth of what is tracked |
| `PendingMerge.LinkedMeans` | cmd/filecloud/library_sync.go:390-455 | commit by commit: each merge is the user's own, has the commit before as second parent, and neither it nor its Head was met before; sizes, identities, trees, expected Head and base are as stored; exactly |
| `PendingMerge.ChainMeans` | cmd/filecloud/library_sync.go:421-444 | the chain part of it, for every chain |
| `PendingMerge.ProtectedMeans` | cmd/filecloud/library_sync.go:870-882 | confirmation is asked from 101 deletions on, or from a tenth of what is tracked |
| `PendingReplay.ReplacementLinked` | cmd/filecloud/library_sync.go:690-708 | after a Head conflict the replaced record is linked if and only if the new Head is new to the record, there is room for one more merge and the new commit fits the size limit |
| `PendingReplay.ReplacementReplays` | cmd/filecloud/library_sync.go:643-708 | the replaced record rebuilds every intermediate and the final commit byte for byte |
| `PendingOutcome.ReplacementKeepsBoth` | cmd/filecloud/library_sync.go:643-708 | the replaced candidate's tree has what the old candidate and the new Head each made of the Head that was expected: the new Head's changes in place, the candidate's in place or in a conflict set apart, every other entry by the table |
| `PendingOutcome.ReplacementKeepsHead` | cmd/filecloud/library_sync.go:643-708 | so every file of the new Head that differs from the expected Head is at its own path |
| `PendingOutcome.ReplacementKeepsCandidate` | cmd/filecloud/library_sync.go:643-708 | and every file that the candidate changed is there with its content, at its path, at a copy or in the fallback directory |
| `PendingOutcome.StartKeepsBoth` | cmd/filecloud/library_merge.go:78-122 | the first merge does the same for the captured tree and the moved Head on the binding's base |
| `PendingOutcome.RunKeepsBoth` | cmd/filecloud/library_sync.go:643-726 | and so does every replacement of any run of Head conflicts |
| `PendingReplay.RunInOrder` | cmd/filecloud/library_sync.go:643-726 | over any number of Head conflicts every record stays linked, verified and replayable |
| `PendingReplay.RunKeepsHistory` | cmd/filecloud/library_sync.go:678-688 | a later record holds the earlier history as a prefix |
| `PendingReplay.LocalInOrder` | cmd/filecloud/library_merge.go:78-104 | the record of a local commit is in order exactly when the commit fits the size limit |
| `PendingReplay.StartInOrder` | cmd/filecloud/library_merge.go:78-122 | the record of a first merge with a moved Head is in order exactly when both commits fit and Head is not the captured commit itself |
| `PendingWorld.SuchAWorld` | internal/object/object.go:758-778 | commit printing, hashing and fetching as supposed here are possible: printing that is injective and an ancestry without cycles |
| `PendingRebuild.RebuildPendingMerge` | cmd/filecloud/library_merge.go:151-227 | unless a budget runs out, rebuilding succeeds exactly when every commit is reproduced and the statistics agree |
| `PendingRebuild.ReplacePending` | cmd/filecloud/library_sync.go:643-726 | a successful replacement is the specified record, in order, and its tree has both sides' changes; a failure names what is missing |
| `AncestorSearch.ReplayBudget.DescendsFrom` | cmd/filecloud/library_sync.go:904-935 | within its budget the search answers exactly whether the commit descends from the ancestor; it fails only when a commit cannot be fetched or the budget is spent |
| `RestorePlanner.Planner.ApplyPath` | cmd/filecloud/library_restore_planner.go:298-373 | the recursion computes the specified overlay and books, and the cycle errors never fire |
| `RestorePlanner.Planner.MergeNode` | cmd/filecloud/library_restore_planner.go:425-458 | overlaying a node on a node: result and books as specified |
| `RestorePlanner.Planner.BuildMissingPath` | cmd/filecloud/library_restore_planner.go:375-423 | building a path that Current lacks: result and books as specified |
| `RestoreOverlay.ApplyAt` | cmd/filecloud/library_restore_planner.go:298-373 | at the restored path the result is the source laid over what Current had there |
| `RestoreOverlay.OverlayLays` | cmd/filecloud/library_restore_planner.go:499-576 | every source node is in the overlay: files with content and time of the source, directories with the later time; what only Current had stays |
| `RestoreOverlay.ApplyElsewhere` | cmd/filecloud/library_restore_planner.go:298-373 | everything off the restored path is unchanged, except below a file of Current that stood in the way, which is replaced by the whole source node |
| `RestoreOverlay.ApplyAbove` | cmd/filecloud/library_restore_planner.go:298-373 | the directories on the way keep the later of the two times |
| `RestoreOverlay.ApplyTwice` | cmd/filecloud/library_restore_planner.go:298-373 | planning again over the result gives the result |
| `RestoreAccounting.PlanBooksExact` | cmd/filecloud/library_restore_planner.go:79-140 | a path is in the changed set exactly when the result has an entry there that Current has not or has differently, in the removed set exactly when only Current has it; created, updated and replaced partition the changed set and the counters are their sizes |
| `RestoreAccounting.PlanAgain` | cmd/filecloud/library_restore_planner.go:79-140 | planning again changes and removes nothing |
| `RestoreAccounting.UnchangedPlan` | cmd/filecloud/library_restore_planner.go:79-140 | a plan without changed paths leaves the root as it was |
| `RestorePlan.PlanRestore` | cmd/filecloud/library_restore_planner.go:79-140 | the whole plan: the overlay, exact statistics, the sorted and cut list of changed paths |
| `RestorePlan.ValidateRestoreFields` | cmd/filecloud/library_restore_publication.go:88-133 | the validator accepts exactly the records with valid source, sizes, consistent statistics and a preview that agrees with the change count |
| `RestorePlan.PlanAccepted` | cmd/filecloud/library_restore_publication.go:88-133 | statistics and preview of any plan under the default budget that changes the root satisfy that validator |
| `RestorePlan.PrepareRestore` | cmd/filecloud/library_restore.go:222-287 | preparing a restore stores nothing exactly when the root stays the same, and otherwise a record that the validator accepts, which names source, path, both roots and both commits and counts the new, changed, retyped, removed and preserved paths each in its own field |
| `HeadValidation.Validation.ValidateFile` | internal/library/head.go:559-622 | a file is examined once; when nothing is missing its blocks are stored, sized as the format demands and add up |
| `HeadValidation.Validation.ValidateRoot` | internal/library/head.go:444-501 | when nothing is missing, everything reachable from the root is stored and sound |
| `HeadValidation.Validation.ValidateSources` | internal/library/head.go:347-411 | when nothing is missing, the second-parent chain is a chain of unpublished sources with mainline first parents ending in a one-parent commit, and the rows are theirs |
| `HeadValidation.Validation.ValidateCandidate` | internal/library/head.go:302-411 | no error and nothing missing imply a sound candidate: its snapshot and those of its sources are complete, fit, and the roles are exactly theirs; and a sound candidate is accepted with these roles unless a path is too long, too deep or inside itself, or a limit is reached |
| `HeadValidation.CandidateMeans` | internal/library/head.go:302-411 | a candidate is sound exactly when: the commit is the owner's, without parents on an empty library and otherwise on the current mainline Head, alone or with a chain of distinct unpublished sources as second parent, each on a mainline commit; and everything that names lead to from each of their roots can be read, with blocks of the required sizes |
| `Publication.LibraryTable.UpdateLibraryHeadWithRoles` | internal/storage/libraries.go:153-233 | the transaction succeeds exactly on the expected head and version with agreeing rows; it then advances by one version and inserts every row, and otherwise changes nothing |
| `Publication.RowsAgreeMeans` | internal/storage/libraries.go:153-233 | the rows agree exactly when there is one for each commit, complete, the candidate's own as mainline under itself, all others as merge sources under it, and none against a stored row |
| `Publication.StepKeepsInvariant` | internal/library/head.go:61-153 | uploads, admissions, commits and collections keep the invariant: the first-parent chain of Head is distinct mainline commits and grows by one in front per success, every merge-source hangs off exactly one mainline commit, and the published closure is stored and sound |
| `Publication.RunKeepsInvariant` | internal/library/head.go:61-153 | it holds in every state of every run |
| `Publication.PublishedStaysStored` | internal/storage/gc.go:91-124 | what published commits reach at any moment is stored, sound and unchanged at every later moment, collections cut in the middle included |
| `Snapshots.ReachableIsHistory` | internal/storage/gc.go:158-287 | what references reach from published commits is exactly: the commits that parents lead to, their root directories, every file and directory that entries lead to from there, and every block of those files |
| `Snapshots.SoundIsSnapshotWhole` | internal/library/head.go:444-501 | a snapshot is sound exactly when every directory and file that names lead to can be read and every file's blocks are stored, all but the last of four mebibytes, adding up to its length |
| `PublishedSnapshots.PublishedIsWhole` | internal/library/head.go:61-153 | in every state of every run all of that can be read for every published commit, and the blocks of each file have the required sizes |
| `PublishedSnapshots.HistoryStaysWhole` | internal/storage/gc.go:91-124 | and at every later moment it is there unchanged and still belongs to that commit |
| `Publication.HistoryOnlyGrows` | internal/library/head.go:61-153 | a later mainline is the earlier one with commits in front, and no role row ever changes |
| `GarbageCollector.Marker.MarkPublished` | internal/storage/gc.go:158-287 | the mark set equals the reachability closure of the published commits, that is their histories with all directories, files and blocks; marking fails exactly when a reachable object cannot be read |
| `GarbageCollector.Collector.Plan` | internal/storage/gc.go:308-368 | the plan is exactly the expired unmarked files of the walk, with their totals by kind |
| `GarbageCollector.Collector.Collect` | internal/storage/gc.go:91-124 | only expired files outside the histories of published commits are deleted however the run is cut, all of them when it is not, none in a dry run; whatever belongs to such a history stays as it is |
| `GarbageCollector.CollectKeepsReachable` | internal/storage/gc.go:91-124 | an object that a published commit reaches is readable and unchanged after a collection |
| `GarbageCollector.CollectKeepsHistory` | internal/storage/gc.go:91-124 | commits, root, names, files and blocks of every published commit are as before after a collection, cut or not |
| `GarbageCollector.CollectKeepsClosure` | internal/storage/gc.go:91-124 | a sound published closure stays sound |
| `Collections.CollectionIsStep` | internal/storage/gc.go:91-124 | what a collection leaves on the disk is a collection step of the runs above, for every library |
| `Collections.CollectionKeepsInvariant` | internal/storage/gc.go:91-124 | so it keeps the invariant and the mainline |
| `History.ListHistory` | internal/library/history.go:203-234 | a page is the walk along first parents from the token; it fails exactly when the walk meets a commit that is not mainline, not stored or of another author |
| `History.AnchoredPagesSucceed` | internal/library/history.go:203-234 | from any commit of the anchored mainline, at any later moment of a run, no page is refused |
| `History.PagesConcatenate` | internal/library/history.go:203-234 | pages of any sizes read at any later moments concatenate to the first-parent chain of the anchor, each commit once |
| `History.TokensConcatenate` | internal/library/history.go:203-234 | a listing from its first page on, each next page asked for with the token of the one before, gives the mainline that Head had at the first page, in order and as far as the sizes go; a token is left exactly when commits are |
| `History.BuildHistoryListEntries` | cmd/filecloud/library_history.go:143-186 | under the role invariant the client lists every merge-source once under its own mainline commit while there are at most 1024, and otherwise reports the limit |
| `History.PageMergesKnown` | cmd/filecloud/library_history.go:143-186 | the invariant provides what that listing needs for every page |
| `CandidateHistory.EncodeCandidateHistory` | cmd/filecloud/library_sync.go:127-149 | encodes exactly the storable histories, in a buffer of the size computed beforehand |
| `CandidateHistory.DecodeCandidateHistory` | cmd/filecloud/library_sync.go:151-181 | accepts exactly the encodings and returns what was encoded |
| `CandidateHistory.EncodingInjective` | cmd/filecloud/library_sync.go:127-181 | no two histories share an encoding |
| `RestorePreview.EncodeRestorePreview` | cmd/filecloud/library_restore_publication.go:23-50 | encodes a list exactly when its sorted form is canonical |
| `RestorePreview.SortedCanonical` | cmd/filecloud/library_restore_publication.go:23-42 | which lists those are: few enough, valid and without duplicates |
| `RestorePreview.DecodeRestorePreview` | cmd/filecloud/library_restore_publication.go:52-86 | accepts exactly the encodings of canonical lists and returns the list |
| `RestorePreview.EncodingInjective` | cmd/filecloud/library_restore_publication.go:23-86 | no two canonical lists share an encoding |
| `ConflictProvenance.ValidateConflictPromotions` | cmd/filecloud/library_checkout.go:53-73 | accepts exactly lists of valid records in which no two sources and no two targets are equal under case folding |
| `ConflictProvenance.EncodedSize` | cmd/filecloud/library_checkout.go:75-127 | the size computed beforehand is the size of the encoding |
| `ConflictProvenance.EncodeConflictPromotions` | cmd/filecloud/library_checkout.go:75-127 | encodes, in the old or the seeded format, exactly the lists whose sorted form is storable |
| `ConflictProvenance.DecodeConflictPromotions` | cmd/filecloud/library_checkout.go:129-181 | accepts exactly the encodings and returns the list |
| `ConflictProvenance.EncodingInjective` | cmd/filecloud/library_checkout.go:75-181 | no two lists share an encoding |
| `CanonicalJson.AppendJSONString` | internal/object/object.go:780-806 | the printed string is the escaped text in quotes |
| `CanonicalJson.StringReadsBack` | internal/object/object.go:780-806 | escaping as in section 3.2.2.2 of RFC 8785 is self-delimiting and undone by reading |
| `CanonicalJson.AppendFile` | internal/object/object.go:724-736 | prints a File in its canonical form |
| `CanonicalJson.AppendDirectory` | internal/object/object.go:738-756 | prints a Directory in its canonical form |
| `CanonicalJson.AppendCommit` | internal/object/object.go:758-778 | prints a Commit in its canonical form |
| `CanonicalJson.PrintInjective` | internal/object/object.go:724-806 | distinct Files, Directories and Commits never share canonical bytes |
| `Utf8.TruncateUTF8` | cmd/filecloud/client_fs_actions.go:195-206 | the loop cuts to the longest prefix within the limit that ends before a character |
| `Utf8.TruncatedLongest` | cmd/filecloud/client_fs_actions.go:195-206 | no longer prefix within the limit ends at a character |
| `Utf8.TruncatedIsUtf8` | cmd/filecloud/client_fs_actions.go:195-206 | cutting text leaves text |
| `ConflictNames.MarkerPrefixOpens` | cmd/filecloud/library_merge.go:681-715 | the marker of the program has the shape that reading names back relies on |
| `ConflictNames.ConflictCopyName` | cmd/filecloud/library_merge.go:681-715 | the loop finds the first candidate that is free, or reports that none fits |
| `ConflictNames.CopyFromFits` | cmd/filecloud/library_merge.go:681-715 | a chosen name is valid, free under case folding, within the leaf budget and one of the numbered candidates |
| `ConflictNext.CopyNameTells` | cmd/filecloud/library_merge.go:681-715 | a copy is named by a beginning of the original's stem, the marker with device and time of the seed commit, a number unless it is the first, and the whole extension |
| `ConflictNext.FallbackNameTells` | cmd/filecloud/library_merge.go:725-741 | a name in the fallback directory by the seed's first twelve digits, a beginning of the leaf and its number |
| `NameRules.PlainRulesAreSound` | cmd/filecloud/library_merge.go:681-715 | what the lemmas about conflict names suppose of name checks, folding and the two printed fields can be met together |
| `ConflictChain.GeneratedCopyReads` | cmd/filecloud/library_sync.go:2309-2359 | parsing a generated copy name recovers its directory, seed, extension and number, unless the extension contains the marker |
| `ConflictChain.GeneratedFallbackReads` | cmd/filecloud/library_sync.go:2309-2359 | parsing a generated fallback name recovers stem and number |
| `ConflictChain.LongestFamilyPrefix` | cmd/filecloud/library_sync.go:2399-2419 | the loop finds the longest beginning of a path that is a family name |
| `ConflictChain.NextRaises` | cmd/filecloud/library_sync.go:2421-2477 | every next name ranks strictly higher (copies by number, then fallbacks by number) and is a valid path |
| `ConflictNext.CopyGoesOn` | cmd/filecloud/library_sync.go:2421-2477 | a copy's next name is the copy with the next number whenever there is one left and it fits, and otherwise the first name in the fallback directory whenever the seed is known and that fits |
| `ConflictNext.FallbackGoesOn` | cmd/filecloud/library_sync.go:2361-2397 | a fallback name's next name is the same with the next number, exactly when there is one left and it fits |
| `ConflictNext.NextCopyReads` | cmd/filecloud/library_sync.go:2309-2359 | the next copy reads back as the same copy with the next number, unless the extension holds the marker |
| `ConflictNext.FirstFallbackReads` | cmd/filecloud/library_sync.go:2472-2476 | the first fallback name reads back as number one with the seed's digits |
| `ConflictNext.NoFamilyEnds` | cmd/filecloud/library_sync.go:2399-2419 | a path that is in no family at any depth has no next name |
| `ConflictChain.ChainNeverRepeats` | cmd/filecloud/library_sync.go:2421-2477 | so the chain never comes back to a name |
| `ConflictChain.ChainEnds` | cmd/filecloud/library_sync.go:2421-2477 | and ends within 19998 steps |
| `ConflictChain.ChainFits` | cmd/filecloud/library_sync.go:2421-2477 | every name fits: a leaf of at most 240 bytes in a path of at most 1024 |
| `ConflictUtf8.ChainIsUtf8` | cmd/filecloud/library_sync.go:2421-2477 | every name of the chain, copies and fallbacks, is text when the first name and the source are: no character is split |

## Left out

- HTTP handlers and clients, retries, flags, printing, SQL text and schema, locks: I/O without an invariant of its own.
- Cancellation, and changes to the store while one Head validation runs: each validation reads one store.
- Other programs writing to the worktree, and the double-read check of the scan: a captured snapshot is given.
- Verification of captured content before finalizing and cleanup (`verifyNamedRecovery`) and the changed recovery metadata of directories whose files are promoted: they detect outside changes only.
- Names that clash only under case folding on disk, late promotions and the aliases they handle, creation of the fallback root on disk, and promotion chains inside the journal validator.
- The create-to-identity window of the journal inside an application: `PreserveChain` covers it on its own.
- The first checkout of a binding, which installs its target while still pending and has nothing to move aside.
- Inode numbers used again by the file system within one application.
- Hard links, and directory times after the system touched them, which count as unknown until they are set.
- Resolution of parent paths to inodes when a journaled action runs: parents are given by their verified inode.
- Unicode normalisation, case folding, name and time syntax, and the quoting of error texts: parameters, with the few facts that proofs need stated as assumptions.
- SHA-256 and page tokens: hashing is injective, tokens are opaque.
- Token streams and depth limits of the JSON decoders: only printing is modelled.
- File sizes in listings, and the re-derivation of promotion authority from cached commits.
- RestorePlan.PlanRestore: the separate listing of all paths of the result, with its own budget, is not part of the plan here.
- Fetching remote commits during a replay spends no budget here; `AncestorSearch` covers that budget.
- Sorting inside the encoders returns a new list; the program sorts a copy for previews and the slice of the caller for provenance.
- HeadValidation.Validation.ValidateCandidate: which of several errors is reported first is not stated.
- Lineage.CapturedRun: agreement of times over several merges is not stated, since a file whose place stays may take the later of two times; MergeTimes states it for one merge.
- PreserveChain.ValidateJournal: rows other than creations and preserve rows are accepted as they are; their own field checks are single conditions.
