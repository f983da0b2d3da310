# Verified model of the durable refresh protocol

An IPTV relay refreshes its provider and guide data in the background. This project models the
code that must not lose, repeat or mix up work while it does so, and proves what that code
promises.

- **Refresh protocol** (`RefreshDb`, `RefreshSystem`, `RefreshInvariant`, `RefreshAging`,
  `RefreshQueueing`, `RefreshReplay`, `RefreshTheorems`, `RefreshSafety`, `RefreshEffects`,
  `RefreshStranding`, `RefreshScenarios`, `OutboxLoops`). Four tables (jobs, outbox, reconciliation runs, snapshots), one
  function per committed transaction, and a step relation in which any number of dispatchers with
  stale read lists interleave with staging, preparation, retries, lost leases, cancellation, failure,
  completion, publication, dead-letter replay and cleanup. An aborted transaction is a step that does
  not happen, a crashed dispatcher is a `Stop` step. One inductive invariant holds in every reachable
  state; the safety theorems follow from it, and `RefreshEffects` says row by row what each transaction
  does. Where a theorem has an exception, `RefreshScenarios`
  reaches it by an execution.
- **Snapshot store** (`SnapshotTable`, `SnapshotStore`, `SnapshotLink`). The staging / active /
  superseded / rejected life cycle as effects on a table, and the store's four operations as methods
  of a class. A `World` names the statements that fail and the progress reports that are refused, so
  each contract covers every place where a call can abort. `SnapshotLink` ties the protocol's
  snapshots to the table: every protocol step is an allowed effect.
- **Staged rows** (`StagedRows`). The buffer that spills to a file of JSON lines, with the file
  cursor that reader and writer share, against a plain sequence. The codec is a parameter: decoding
  undoes encoding, and an encoding is nonempty, holds no newline and does not end in white space.
- **Guide matching** (`Text`, `Reconcile`, `EpgRefresh`, `EpgLaws`). The eight look-ups of the seven evidence
  methods (an alias is looked up by call sign and then by name), a specification that does not
  mention candidate order, runs of refreshes that feed bindings back, and the decision said in the texts
  of station and candidates.
- **Expiring tables** (`Sessions`, `Throttle`). Lazily purged maps against the history of what was
  issued or accepted.
- **Small cores** (`MpegTs`, `ChannelNumber`, `Progress`).

Objects whose methods update fields are classes; pure code is functions. White space and
alphanumeric characters, clocks, random tokens, generated ids and database failures are parameters.

## Where the code does not keep a promise

Each has a reachable example and the exact condition.

- **Dead-letter replay** (crates/persistence/src/lib.rs:3182-3223) inserts a job with the payload of a
  failed one and consults neither its parent, nor the outbox, nor the partitions. So a child can
  appear after its parent has ended, be queued under a cancelled parent, be the second job of one
  partition, and be a finalizer of a run whose partitions are queued again:
  `ReplayUnderFailedParent`, `ReplayUnderCancelledParent`, `ReplayedFinalizer`. The theorems on child
  jobs hold for every job that a dispatch added, and say of a replayed one that it repeats the parent
  and the work of a job that was there (`ChildHasOrigin`, `NoChildAfterEnd`, `CancellationStops`).
- **The finalizer key** holds the run but not the parent (crates/persistence/src/lib.rs:2252-2273). A
  partition completion queues the finalizer exactly if the key is free and the parent not cancelled
  (`CompletionQueues`), and the completion of a parent's last partition strands it exactly if the key
  is taken (`LastCompletionStrands`). A stranded parent never gets a finalizer, also after cleanup
  has freed the key (`StrandedForever`); `StrandedRefresh` reaches one.
- **A swallowed insert** is counted as dispatched: `DispatchCountsJobs` gives the exact difference,
  `SwallowedInsert` reaches one, and `SpentWithoutJob` shows that the entry never gets a job.
- **Preparation for another parent.** A run that is being processed is requeued under the parent it
  has, even if that one has ended, and the new parent gets no intent: `PrepareServes` gives the exact
  condition, `RunOfDeadParent` the input.
- **A finalizer job** exists only for finished partitions as long as no partition leaves `succeeded`.
  Reloading a failed or published run does reset its partitions
  (crates/persistence/src/catalog.rs:209-405), which is why `FinalizerMeansDone` names that
  condition.
- **Publication** supersedes both live kinds of an account, so an account can lose its active snapshot
  of one kind when the other is published: exactly then (`ActiveStays`, `PublishTakesOtherKind`).
- **`activate` on known content** looks at neither status nor rows. Active snapshots are complete in
  all states of a run exactly if every such call found complete rows (`ActiveCompleteExactly`);
  cleanup of rows and a later `activate` break it (`IncompleteActiveSnapshot`).
- **A refused progress report** does not always roll back, as the comment on `stage_with_progress`
  says it does: reuse commits before it reports. `RefusedReport` gives the exact condition.
- **A spill that does not fit** drops the buffered rows and keeps `len`, and a push while a reader has
  moved the shared cursor overwrites stored lines: `Push` says that the object is then invalid, and
  `MisplacedLine` that only a cursor at the end is right.
- **Partition progress** of a complete run shows 99 exactly when 14 times its size fits 64 bits
  (`PartitionBand`).

## Model

| member | source | states |
|---|---|---|
| RefreshTheorems.StepKeeps | crates/persistence/src/outbox.rs:7-92 | every step of any dispatcher, worker, canceller, operator replay or cleanup keeps the protocol invariant (unique keys, unique open jobs, owned runs, queued partitions, sound read lists, sound dispatch log) |
| RefreshSafety.InvHolds | crates/persistence/src/outbox.rs:27-92 | the invariant holds in every state of every execution from empty tables |
| RefreshSafety.DispatchedOnce | crates/persistence/src/outbox.rs:61-89 | over every interleaving each outbox entry is dispatched at most once, and the child jobs that no replay added are exactly the entries whose dispatch inserted one |
| RefreshSafety.ChildNeedsOpenParent | crates/persistence/src/outbox.rs:64-83 | a child job appears only while its parent is queued or running, or exactly by a replay, and then repeats the parent and work of a failed child |
| RefreshSafety.EndedStaysEnded | crates/persistence/src/lib.rs:2407-2815 | a job that has ended never becomes queued or running again |
| RefreshEffects.ResultWasRunning | crates/persistence/src/lib.rs:2931-3114 | in every execution a child job that has succeeded or failed was running before |
| RefreshSafety.NoChildAfterEnd | crates/persistence/src/outbox.rs:61-89 | once a parent has ended no dispatch adds a child to it, whatever lists dispatchers still hold, and every replayed child repeats the work of a child it had |
| RefreshSafety.ChildHasOrigin | crates/persistence/src/lib.rs:3182-3223 | every child job, however often replayed, does the work of a job that a dispatch added for the same parent |
| RefreshSafety.CancelledParentIsQuiet | crates/persistence/src/lib.rs:2624-2815 | a queued or running child of a cancelled refresh is a replayed one, in every reachable state |
| RefreshSafety.CancellationStops | crates/persistence/src/lib.rs:2624-2815 | every child that was there while its parent was open, replayed or not, is stopped once the parent is cancelled |
| RefreshSafety.ExactPartitionIntents | crates/persistence/src/outbox.rs:14-24 | however often preparation is attempted, a run with an open parent has exactly one intent for each partition number below its count and none for any other |
| RefreshSafety.OneJobPerWork | crates/persistence/src/outbox.rs:34-83 | dispatch never gives one refresh two jobs for the same partition or finalizer, and no two open jobs anywhere do the same work, replayed or not |
| RefreshSafety.SpentWithoutJob | crates/persistence/src/outbox.rs:71-88 | an entry that was dispatched without a job never gets one |
| RefreshSafety.FinalizerAppearsAfterPartitions | crates/persistence/src/outbox.rs:57-88 | every partition of the run has succeeded when a dispatch adds its finalizer job, although that was checked when the list was read |
| RefreshSafety.FinalizerMeansDone | crates/persistence/src/outbox.rs:57-88 | while no partition leaves succeeded, a finalizer job, dispatched or replayed, exists only for a run with every partition succeeded |
| RefreshEffects.ProcessExactly | crates/persistence/src/catalog.rs:522-636 | processing makes exactly its own partition of its own run done, exactly if run and snapshot are ready, and touches nothing else |
| RefreshEffects.DoneWasProcessed | crates/persistence/src/catalog.rs:456-660 | in every execution a partition that is done was processed by a running job of that very partition, since its run was created or last rebuilt |
| RefreshEffects.FinalizerAfterProcessing | crates/persistence/src/outbox.rs:57-88 | a dispatch adds a run's finalizer only after each of its partitions was processed by a job of its own |
| RefreshSafety.RebuiltRunWaitsForCleanup | crates/persistence/src/lib.rs:2252-2273 | no dispatch adds a finalizer for a run whose key is held by a dispatched entry or one of an ended parent; only cleanup frees the key |
| RefreshSafety.NoFinalizerUntilCleanup | crates/persistence/src/cleanup.rs:46-48 | over every stretch without that cleanup each finalizer job of the run is one it had or a replay of one it had |
| RefreshStranding.CompletionQueues | crates/persistence/src/lib.rs:2252-2273 | a completion queues the run's finalizer exactly if the key is free and the parent is not cancelled |
| RefreshStranding.LastCompletionStrands | crates/persistence/src/lib.rs:2209-2275 | completing the last partition of an open parent strands it exactly if the key is taken |
| RefreshStranding.StrandedStep | crates/persistence/src/outbox.rs:7-92 | no step of the protocol brings a stranded parent its finalizer |
| RefreshStranding.StrandedForever | crates/persistence/src/outbox.rs:57-88 | over every execution a stranded parent never has a finalizer job, whatever is cleaned up, prepared again, replayed or dispatched |
| RefreshStranding.PrepareServes | crates/persistence/src/catalog.rs:209-405 | a preparation leaves an intent of its parent for every partition exactly if the run is not being processed for another parent, else it leaves none |
| RefreshEffects.PreparedRun | crates/persistence/src/catalog.rs:209-405 | a preparation takes up the newest run of the snapshot with as many partitions as it had, or makes one with the requested number between 1 and 64, in processing, and leaves all other runs |
| RefreshEffects.PrepareRefuses | crates/persistence/src/catalog.rs:225-345 | a snapshot that is not staged or not of a live kind changes nothing, and one without supported keys is rejected |
| RefreshEffects.StageExactly | crates/ingest/src/store.rs:60-80 | staging queues one preparation per parent and snapshot, exactly if there is none |
| RefreshEffects.CompletionExactly | crates/persistence/src/lib.rs:2209-2275 | a completion makes its job succeeded and changes no other job, run or snapshot |
| RefreshEffects.CancelExactly | crates/persistence/src/lib.rs:2624-2815 | a cancellation that no activation lock stops cancels exactly the open refresh, its open unlocked children and its runs in processing; a stopped one changes nothing |
| RefreshEffects.FailExactly | crates/persistence/src/lib.rs:2458-2618 | failing a refresh touches exactly the open refresh, its open unlocked children and its listed runs in processing |
| RefreshEffects.CompleteParentExactly | crates/persistence/src/lib.rs:2407-2454 | completion makes a refresh that was not cancelled succeeded and unlocked and changes nothing else |
| RefreshEffects.FinalizeExactly | crates/persistence/src/catalog.rs:698-1050 | a finalizer is cancelled without a running refresh, publishes a finished run or gives it up behind a newer one under two locks, and else changes nothing |
| RefreshReplay.ReplayKeeps | crates/persistence/src/lib.rs:3182-3223 | a replay keeps the invariant and what dispatchers and the dispatch log rely on |
| RefreshScenarios.ReplayUnderFailedParent | crates/persistence/src/lib.rs:3182-3223 | an execution after which a replay queues a second job of one partition under a parent that has ended |
| RefreshScenarios.ReplayUnderCancelledParent | crates/persistence/src/lib.rs:3182-3223 | an execution that ends with a queued child of a cancelled parent |
| RefreshScenarios.ReplayedFinalizer | crates/persistence/src/lib.rs:3182-3223 | an execution after which a replayed finalizer appears for a run with a partition not done and a spent key |
| RefreshScenarios.StrandedRefresh | crates/persistence/src/lib.rs:2209-2275 | the execution that strands a running refresh with all partitions done |
| RefreshScenarios.SwallowedInsert | crates/persistence/src/outbox.rs:77-88 | the execution in which a running job of a published run swallows the insert of the rebuilt run, whose entry is then spent |
| RefreshScenarios.RunOfDeadParent | crates/persistence/src/catalog.rs:209-405 | the execution in which a run stays with its ended parent and the new parent gets no intent |
| OutboxLoops.JobRepository.QueueReconciliation | crates/persistence/src/outbox.rs:7-25 | the loop queues one intent per partition of a run with a parent and nothing for one without, and draws one id each |
| OutboxLoops.JobRepository.DispatchEntries | crates/persistence/src/outbox.rs:60-91 | the loop performs the dispatch transactions of the rows that are not locked, in order, and counts the attempted inserts; a database error ends it with the earlier rows committed |
| OutboxLoops.DispatchCountsJobs | crates/persistence/src/outbox.rs:60-91 | jobs gained plus inserts swallowed equal the dispatches counted |
| OutboxLoops.DispatchLoopIsRun | crates/persistence/src/outbox.rs:60-91 | the loop is a run of protocol steps, so it keeps the invariant |
| SnapshotTable.ApplyKeeps | crates/ingest/src/store.rs:101-566 | every committed effect of store, reconciliation and cleanup keeps unique content, at most one active snapshot per owner and kind, marked staging rows and valid owners |
| SnapshotTable.HistoryInv | crates/ingest/src/store.rs:101-466 | from the empty table every committed state has at most one snapshot per owner, kind and checksum and at most one active per owner and kind |
| SnapshotTable.HistoryComplete | crates/ingest/src/store.rs:184-237 | a committed snapshot holds exactly the rows its header counts unless cleanup cut that very snapshot |
| SnapshotTable.StagingIsActivatable | crates/ingest/src/store.rs:271-305 | every reachable staging snapshot that was not cut can be activated |
| SnapshotTable.RowsOnlyShrink | crates/persistence/src/cleanup.rs:75-82 | rows never exceed the header, and a snapshot that was cut stays incomplete |
| SnapshotTable.ActiveStays | crates/ingest/src/store.rs:543-566 | an owner and kind keeps an active snapshot through exactly the effects that are no publication of the account's other live kind |
| SnapshotTable.ExactlyOneActive | crates/ingest/src/store.rs:245-566 | once an owner and kind has an active snapshot it has exactly one in every later committed state of a run that does not publish the account's other live kind |
| SnapshotTable.PublishTakesOtherKind | crates/persistence/src/catalog.rs:981-1009 | publication takes it exactly from the other live kind of the same account |
| SnapshotTable.ActiveCompleteExactly | crates/ingest/src/store.rs:351-388 | over every run the active snapshots are complete in all states exactly if every activation of known content found complete rows |
| SnapshotTable.IncompleteActiveSnapshot | crates/persistence/src/cleanup.rs:75-82 | a concrete run that ends with an active snapshot whose rows are gone |
| SnapshotLink.StepIsEffect | crates/persistence/src/catalog.rs:698-1050 | every protocol step but the store's own is an allowed effect on the linked snapshot table |
| SnapshotLink.JointHistory | crates/persistence/src/catalog.rs:209-1050 | over every execution the table runs through a history of its own and stays linked |
| SnapshotLink.ProtocolOneActive | crates/persistence/src/catalog.rs:981-1009 | in every state of every such execution an account has at most one active snapshot of a kind |
| SnapshotStore.Validate | crates/ingest/src/store.rs:469-541 | passes exactly nonempty snapshots with a matching owner and counts that fit a bigint |
| SnapshotStore.InsertBatches | crates/ingest/src/store.rs:711-730 | success writes the rows in order and the count is exact; reports rise strictly and never pass the total; without failures it succeeds exactly when the rows fit the total |
| SnapshotStore.InsertRows | crates/ingest/src/store.rs:568-709 | the three loops together write streams, channels and programmes each into their own table, in order, exactly the header's record count with rising reports, and succeed without failures exactly for a new id, allowed owners and kinds and a matching count |
| SnapshotStore.KindOfFormat | crates/ingest/src/model.rs:32-39 | M3U and XMLTV have their own kind, a short Xtream guide is stored apart, every other Xtream payload under one kind |
| SnapshotStore.OwnersOfFormats | crates/ingest/src/store.rs:529-537 | guide sources own exactly XMLTV, and guide channels come only with XMLTV and short Xtream guides |
| SnapshotStore.BatchesCut | crates/ingest/src/store.rs:9-11 | streams are written in full batches of 500, channels and programmes of 1000, but for the last |
| SnapshotStore.SnapshotStore.Stage | crates/ingest/src/store.rs:101-238 | wherever it aborts the active snapshots stay; unknown content is stored whole, each kind of rows in its own table under the header's owner, kind, checksum and count, with its intent, or nothing changes; known content keeps its id, gains no rows, and after a refused report is left as success leaves it; every other error changes nothing; no statement it relied on failed, and without failures it succeeds exactly under a stated condition |
| SnapshotStore.SnapshotStore.Reuse | crates/ingest/src/store.rs:136-182 | active content changes nothing, staging content gets its intent, superseded content is staged again with its intent, rejected content is refused; the report comes after the commit |
| SnapshotStore.DispatchExactly | crates/ingest/src/store.rs:60-80 | staging leaves the one intent there was for parent and snapshot or adds one with the requested partitions |
| SnapshotStore.RefusedReport | crates/ingest/src/store.rs:136-176 | a refused report rolls back exactly if the content is unknown, active, or staging with its intent already there |
| SnapshotStore.SnapshotStore.ActivateStaged | crates/ingest/src/store.rs:245-306 | success leaves the snapshot the only active one of its slot, an error changes nothing, and without failures it succeeds exactly for an active or a complete staged snapshot |
| SnapshotStore.SnapshotStore.DiscardStaged | crates/ingest/src/store.rs:311-318 | removes exactly a staging snapshot and never an active one |
| SnapshotStore.SnapshotStore.Activate | crates/ingest/src/store.rs:333-466 | an error changes nothing; success leaves the content as the only active snapshot of its slot, under its known id or stored whole, each kind of rows in its own table, with no failed statement; without failures it succeeds exactly for known content or insertable new content |
| StagedRows.WriteJsonLine | crates/ingest/src/model.rs:286-305 | writes the line exactly when it fits the limit, else leaves the file alone |
| StagedRows.StagedRows.Spill | crates/ingest/src/model.rs:231-241 | moves all rows to the file, or fails exactly when they do not fit and then loses the buffer |
| StagedRows.StagedRows.Push | crates/ingest/src/model.rs:225-249 | appends to the row sequence, in memory or as a line within the limit; a refused row leaves rows, bytes and length unchanged; a failed spill and a push at a misplaced cursor leave the object invalid |
| StagedRows.StagedRows.Batches | crates/ingest/src/model.rs:265-284 | reading starts at the first row, whether the rows are in memory or spooled |
| StagedRows.StagedBatchReader.Next | crates/ingest/src/model.rs:321-343 | the next batch is the next rows still unread, as many as the size allows, across buffer refills |
| StagedRows.CollectBatches | crates/ingest/src/model.rs:265-343 | the batches are those of the pushed rows and the size alone, identical in memory and spooled |
| StagedRows.ChunksCut | crates/ingest/src/model.rs:321-343 | batches are nonempty, all but the last are full, and concatenate to the rows in order |
| StagedRows.CutIsUnique | crates/ingest/src/model.rs:321-343 | there is no other such cut, so that description fixes the batches |
| StagedRows.FirstLine | crates/ingest/src/model.rs:330-341 | the first newline of the stored bytes ends exactly the first row's line |
| StagedRows.LineDecodes | crates/ingest/src/model.rs:286-341 | reading back a written line gives the row |
| StagedRows.MisplacedLine | crates/ingest/src/model.rs:266-268 | a written line leaves the lines of all rows exactly if the shared cursor stands at the end, for all rows and cursors |
| StagedRows.OverwriteMeans | crates/ingest/src/model.rs:302-303 | a write replaces as many bytes as it has from the cursor on and keeps the others |
| Text.NormalizeIsStable | crates/domain/src/reconcile.rs:253-267 | splitting a normalised text gives back its words, and normalising twice is normalising once |
| Text.LowerMeans | crates/domain/src/reconcile.rs:253-262 | the 26 capital letters have their small ones |
| Text.EqIgnoreCaseMeans | crates/domain/src/reconcile.rs:105-130 | texts are equal up to case exactly if they are the same in lower case |
| Text.NormalizeKeepsLetters | crates/domain/src/reconcile.rs:253-267 | normalising keeps the letters and digits in order, in lower case |
| Text.TrimMeans | crates/domain/src/reconcile.rs:249-251 | trimming takes away the outer white space and nothing else |
| Text.StringLeMeans | crates/domain/src/reconcile.rs:172-177 | ids are ordered as in a dictionary |
| Reconcile.SimilarityRange | crates/domain/src/reconcile.rs:282-296 | similarity lies in 0..1, is symmetric and is 1 exactly for the same nonempty set of words |
| EpgRefresh.ReconcileEpg | crates/domain/src/reconcile.rs:82-189 | gives the decision the evidence calls for: the first stage with a match decides, by application or by a sorted review list of all its matches |
| EpgRefresh.UniqueOrReview | crates/domain/src/reconcile.rs:220-247 | nothing for no match, application of a single match, else a review list of exactly the matches sorted by id |
| EpgLaws.StageSpeaks | crates/domain/src/reconcile.rs:94-176 | which candidate each stage supports, said in ids, tvg-ids, call signs, aliases, names, scopes and words, in the order of the stages |
| EpgLaws.ManualLaw | crates/domain/src/reconcile.rs:94-103 | a manual binding to a candidate that is present is applied with confidence 1 |
| EpgLaws.PreviousLaw | crates/domain/src/reconcile.rs:94-103 | else the previous binding if its candidate is present |
| EpgLaws.TvgLaw | crates/domain/src/reconcile.rs:105-117 | else the only candidate whose tvg-id or id is the station's trimmed tvg-id up to ASCII case, with 0.99 |
| EpgLaws.CallsignLaw | crates/domain/src/reconcile.rs:119-130 | else the only candidate with the station's trimmed call sign up to ASCII case, with 0.98 |
| EpgLaws.AliasLaw | crates/domain/src/reconcile.rs:132-142 | else the candidate that the alias of the call sign names, else that of the name, with 0.97 |
| EpgLaws.NameLaw | crates/domain/src/reconcile.rs:144-151 | else the only candidate with the same normalised name, with 0.95 |
| EpgLaws.TvgReview | crates/domain/src/reconcile.rs:220-247 | several candidates with the tvg-id are exactly the review list, by id |
| EpgLaws.CallsignReview | crates/domain/src/reconcile.rs:220-247 | several candidates with the call sign are exactly the review list, by id |
| EpgLaws.NameReview | crates/domain/src/reconcile.rs:220-247 | several candidates with the name are exactly the review list, by id |
| EpgLaws.FuzzyLaw | crates/domain/src/reconcile.rs:153-183 | else exactly the candidates without conflicting group or country whose common words reach the threshold are listed, with that ratio, the more similar first and then by id |
| EpgLaws.UnresolvedLaw | crates/domain/src/reconcile.rs:87-189 | nothing is resolved exactly if no evidence speaks for any candidate, with the reason for an empty list apart |
| Reconcile.DecisionIgnoresOrder | crates/domain/src/reconcile.rs:82-189 | every permutation of the candidates gives the same decision, also with repeated ids and equal confidences |
| EpgRefresh.AppliedExactly | crates/domain/src/reconcile.rs:94-151 | a mapping is applied exactly when the first stage with a match is not fuzzy and is configured or has one match; it names a candidate and is never fuzzy |
| EpgRefresh.AmbiguityIsReviewed | crates/domain/src/reconcile.rs:158-188 | several exact matches, and any fuzzy ones, give a review of all of them |
| EpgRefresh.RefreshStep | crates/domain/src/reconcile.rs:192-202 | the binding a refresh leaves: manual if offered, else the current one if offered, else what is applied, else the current one |
| EpgRefresh.BindingNeverCleared | crates/domain/src/reconcile.rs:192-202 | over every run of refreshes a binding is never cleared |
| EpgRefresh.BindingIsStable | crates/domain/src/reconcile.rs:57-103 | it keeps its id through every run of refreshes that offers it or applies nothing, unless a manual binding to a present candidate overrides it |
| EpgRefresh.LossHasCause | crates/domain/src/reconcile.rs:87-103 | a binding changes only to an offered candidate, by manual override or because its own was not offered |
| Sessions.EntryMeans | crates/api/src/auth.rs:203-328 | a never-purged table holds a session exactly while it is open, with an expiry 12 hours after sign-in and the latest token |
| Sessions.ReissueDoesNotExtend | crates/api/src/auth.rs:209-219 | a reissued token changes the life of no session |
| Sessions.EndIsFinal | crates/api/src/auth.rs:302-312 | a session that was ended is not live again until its token is issued again |
| Sessions.LoginEntryMeans | crates/api/src/auth.rs:222-237 | a never-purged login table holds a token exactly while it is under 30 minutes old, not spent and not evicted |
| Sessions.AuthManager.Authorize | crates/api/src/auth.rs:430-451 | a session request passes exactly when its token was issued under 12 hours ago and not ended since, the account's scopes contain one that allows what is required, and header and cookie carry the latest token where required; purging cannot be observed |
| Sessions.RolesMay | crates/api/src/auth.rs:121-129 | an admin may everything, an operator read, control and use outputs, a viewer read and use outputs |
| Sessions.AuthManager.SessionUser | crates/api/src/auth.rs:292-300 | gives the account of exactly the live sessions without purging |
| Sessions.AuthManager.Logout | crates/api/src/auth.rs:490-494 | records the end of the session and keeps table and history in agreement |
| Sessions.AuthManager.CompleteLogin | crates/api/src/auth.rs:302-328 | opens a session, ends the one it was bound to or spends its login token, and keeps agreement |
| Sessions.AuthManager.CsrfBinding | crates/api/src/auth.rs:522-547 | binds to exactly the live session whose latest token was sent, or without one to a login token issued under 30 minutes ago, not spent and not evicted |
| Sessions.AuthManager.EnsureCsrfCookie | crates/api/src/auth.rs:203-238 | issues a token exactly when the request carries no valid one and randomness is available; at most 4096 login tokens; only a full table of live tokens loses one, an oldest |
| Throttle.CaptureThrottle.ClaimSlot | crates/api/src/passive_capture.rs:30-47 | accepts exactly when no accepted claim of the id is younger than the interval and fewer than 4096 other ids have young claims; the table never exceeds 4096 |
| Throttle.Verdict | crates/api/src/rate_capture.rs:36-53 | the lazily purged table decides the rule on the whole history, for any interval |
| Throttle.RunIsThrottled | crates/api/src/rate_capture.rs:36-53 | over every run accepted claims of an id are an interval apart and at most 4096 ids are young when one is accepted |
| MpegTs.MpegTsValidator.Feed | scripts/jellyfin-live-acceptance.py:43-51 | keeps the count and the pending bytes of the stream so far, or stops at its first packet without a sync byte |
| MpegTs.MpegTsValidator.Finish | scripts/jellyfin-live-acceptance.py:53-55 | gives the verdict on the stream fed |
| MpegTs.Validate | scripts/jellyfin-live-acceptance.py:35-55 | for every cut into chunks the verdict is that of the whole stream (section 2.4.3.2 of ISO/IEC 13818-1), with packets equal to bytes / 188 |
| MpegTs.JudgedOnce | scripts/jellyfin-live-acceptance.py:43-55 | a stream has one verdict, so the packet index of a sync failure does not depend on the chunks |
| MpegTs.SyncLostStays | scripts/jellyfin-live-acceptance.py:43-51 | a sync failure of a prefix is that of the whole stream |
| ChannelNumber.New | crates/domain/src/catalog.rs:133-158 | accepts exactly trimmed decimal numbers of at most 32 characters and gives the canonical text of the same number |
| ChannelNumber.CanonicalUnique | crates/domain/src/catalog.rs:147-157 | two canonical texts of one number are equal |
| ChannelNumber.SameTextSameNumber | crates/domain/src/catalog.rs:133-158 | two accepted texts canonicalise alike exactly when they denote the same number |
| ChannelNumber.CanonicalIsFixed | crates/domain/src/catalog.rs:133-158 | every canonical text is accepted and unchanged |
| Progress.PartitionBand | apps/server/src/main.rs:1568-1576 | partition percent stays in 85..99 and does not fall for all machine integers; completion shows 99 exactly when 14 times the total does not saturate |
| Progress.ShareMonotone | apps/server/src/main.rs:2977-2984 | a saturating share grows with the count and stays within its span |
| Progress.ShareValue | apps/server/src/main.rs:2977-2984 | the share times the total is the saturated product rounded down |
| Progress.PartitionValue | apps/server/src/main.rs:1568-1576 | partition percent is 85 plus the whole parts of 14 that the clamped count makes up |
| Progress.StagingValue | apps/server/src/main.rs:2850-2861 | staging percent is 55 plus the whole parts of 15 |
| Progress.BatchValue | apps/server/src/main.rs:2977-2985 | batch percent is its start plus the whole parts of its span |
| Progress.CountedValue | apps/server/src/main.rs:2850-2930 | the percent of the counting phases: 15 parts above 55, 4 above 86 and 3 above 91 |
| Progress.Banded | apps/server/src/main.rs:2810-2985 | every percent lies in the band of its phase whatever the counts |
| Progress.PercentNeverFalls | apps/server/src/main.rs:2810-2985 | over every run of checkpoints in pipeline order the percent never falls |

## Left out

- The deletion of sources, accounts and users; closing a dead letter without replaying it. A refresh job that is replayed is a new refresh; a child that failed because its lease expired is not archived, while the model lets any failed child be replayed once.
- Commits with an unknown outcome: a transaction of the model commits or aborts.
- The order and the limits (16 and 128 rows) of the two dispatch queries: a list read in the model is any list of matching rows, which covers them.
- Malformed outbox payloads: the model's payloads are typed.
- Leases, heartbeats and retry times of jobs: a job may be retried or fail at any time.
- The canonical channel and stream rows that a reconciliation writes, and the rollback of revisions.
- Disk errors while a spool file is created, written or read; only its size limit fails.
- StagedRows.CollectBatches: reads a row set to its end at once, so the store's model reads each set before it writes batches; an iterator that is dropped half way is covered by StagedRows.StagedRows.Push with a misplaced cursor.
- Rounding of 32-bit floats in similarity and thresholds: `real` arithmetic is used.
- The logarithmic download percent: any non-falling function into 1..14.
- Bearer tokens, operator tokens and the development bypass in front of the session check; password and OpenID Connect exchanges; a failing random source while a sign-in completes, which changes nothing.
- Concurrent requests whose clock readings are out of order with the table lock: times do not fall.
- Digests: taken as injective, so tables are keyed by the token itself.
- Sessions.AuthManager.Authorize: models the session part of the request check, not the bearer part before it.
- The measurement loop of the rate capture and what happens to a stream after its slot is claimed.
- Parsers, HTTP transfer, media handling, the web interface and configuration tables.
