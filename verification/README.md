# Verified models of Kikoto's protocols

This project models the small protocols inside Kikoto's Go backend whose guarantees no single
function states, and proves those guarantees in Dafny. `dafny verify dfyconfig.toml` checks all of it.

- **Login throttle** (`ThrottleModel`, `Limiter`, `ThrottleSafety`, `ThrottleLocks`, `ThrottleHistory`). The bounded
  table of throttled keys, first as value transitions and as the methods of a limiter and its attempts
  that implement them, then over whole runs: charges are conserved, the table stays bounded, and a
  lock of a key that no `Begin` names twice is never shortened; the login handler names an account, an
  address and a pair of both, which are distinct. What a key's failures add up to, and what forgets
  them, is told by the events of the run. Which policies keep their locks whatever a `Begin`
  repeats is given exactly, and so are those whose lockouts double in 64-bit arithmetic.
- **Translate with AI** (`TranslationItems`, `TranslationProtocol`, `TranslationSafety`,
  `TranslationSteps`, `TranslationTheorems`, `TranslationRuns`, `TranslationDoubt`,
  `TranslationOutcomes`, `TranslationResume`, `TranslationStore`, `TranslationRequests`). Each SQL
  statement or transaction is one step over item rows, runs and one executor; reviewers, auto-accept,
  cancellation, the job runner and crashes interleave freely. The theorems speak of every trace. Item
  rows carry a few history fields the program does not store, such as whether a request that left has
  an outcome nobody recorded; when a request may leave again is told by what the world reported, not by
  those fields.
- **Circles** (the modules named `Circle...`). Fifteen tables as one map from key to row. A merge
  is the sequence of its statements; each is shown to touch only rows both snapshots see, to lose no
  name and to keep the schema's constraints. Undo is the three-way comparison, of columns printed as
  text, and the inverse change.
  Creator subscriptions live in the same tables, with their own invariant.
- **Keyed lock** (`KeyedLock`, `CachePathLocker`, `CoverFiles`, `CoverRuns`). A per-key lock with
  reference counts, created and deleted on demand, as a machine of atomic steps and as the class that
  takes them; the calls of one cover publication; and the interleavings of any publications, call by
  call, under such a lock, where each runs through the very states it has alone.
- **Speech transcription** (`Transcription`, `QuietCut`, `WebVtt`, `Decimal`). The loop over the
  chunks of a track, where a chunk is cut, the cues it leaves, and the WebVTT document, read back by a
  reader that follows section 4.1 of W3C WebVTT.
- **Algorithms and writers**. Kahn's ordering of seed tables (`Names`, `SeedOrder`), the buffering
  gzip response writer (`GzipWire`, `GzipWriter`; content coding as in section 8.4 of RFC 9110), the
  feed of new releases (`ReleaseFeed`, `ReleaseHistory`) and the parent of a purchase bonus (`BonusParent`).

Where the code is a loop or changes fields, so does the model; a class method is tied to a function
or relation over values, and the properties are lemmas about those.

Some of what one would expect is not so, and is stated with the exact condition under which it is:

- `Policy.lockout` doubles without overflow if and only if the base is not negative and none of its
  power-of-two multiples lies between 2^62 and the maximum (`LockoutDoublesIff`).
- A policy's locks hold in every run, whatever its `Begin`s repeat, if and only if it allows at most
  one failure, or wherever it locks at all a success does not reset it and the next lockout is not
  shorter (`LocksHoldIff`; for doubling lockouts, `DoublingOutlasts`). For every other policy a
  repeated name lets an attempt in flight end a live lock (`RepeatedNameShortensLock`).
- An item still to be sent has no job that will send it if and only if the job runner failed that job
  and no resend or retry opened it since (`StrandedIff`); then it stays as it is until one does
  (`StrandedStays`), and it happens (`RunnerFailureStrands`).
- An item's checkpoint is the translation of the chunks before its index if and only if it is as long
  as that (`CheckpointIsPrefixIff`); a stored result empties the checkpoint and keeps the index
  (`StoredResultDropsCheckpoint`). Resumed texts are still whole, because rendering refuses another
  number of lines.
- Undo of a merge that nobody touched since is refused if and only if the merge wrote a row with a
  number of a million or more: a number read back from JSON is floating point and prints with an
  exponent, the database's does not (`StoredRowsAlike`, `RefusedIffChanged`, `UndoInvertsMerge`). It
  happens (`LargeNumberIsRefused`).
- Undo does not capture a user's cover code of a circle: codes come back if and only if no user had
  one for the source (`CoversKeptIff`).
- Undo does not notice that the number of a row it restores was given to a row of another circle, and
  then overwrites that row (`OthersKeptIff`, `FreedNumberIsOverwritten`); every subscription of a
  merged circle frees its number (`SourceNumbersFreed`), and the next subscription can be given it
  (`ReusedNumberIsOverwritten`).
- One pass of the arrow replacement leaves a timing arrow exactly in texts with a longer arrow
  (`ArrowRemains`), so reading a transcript back asks for cues without one.
- Replacing a cover by a file with an extension the program does not list leaves no listed cover
  (`ReplaceLeaves`).

## Model

| member | source | states |
|---|---|---|
| Limiter.ComputeLockout | backend/internal/auththrottle/limiter.go:188-194 | the loop computes the doubling lockout in 64-bit arithmetic, for every policy and count |
| Limiter.Limiter.SweepLocked | backend/internal/auththrottle/limiter.go:196-206 | a sweep drops exactly the expired entries, and only when forced or due |
| Limiter.Limiter.MakeRoomLocked | backend/internal/auththrottle/limiter.go:211-229 | eviction makes room or reports that it cannot; it never drops a requested, locked or charged entry |
| Limiter.Limiter.Begin | backend/internal/auththrottle/limiter.go:79-116 | an attempt is admitted and charged on every key, or refused or turned away with nothing charged, as the transition relation says |
| Limiter.Attempt.Finish | backend/internal/auththrottle/limiter.go:144-167 | an attempt refunds its charges and applies its outcome once; a second end changes nothing |
| Limiter.Attempt.Fail | backend/internal/auththrottle/limiter.go:119-127 | a failure counts on every key of the attempt and locks those at their limit |
| Limiter.Attempt.Succeed | backend/internal/auththrottle/limiter.go:130-137 | a success clears failures and lock on keys whose policy says so |
| Limiter.Attempt.Cancel | backend/internal/auththrottle/limiter.go:140-142 | a cancelled attempt only gives its charges back |
| ThrottleSafety.StepConserves | backend/internal/auththrottle/limiter.go:79-167 | in every step pending stays the number of live attempts naming the entry |
| ThrottleSafety.LiveKeysKept | backend/internal/auththrottle/limiter.go:196-229 | no key of a live attempt is dropped by sweep, eviction or the end of another attempt |
| ThrottleSafety.RefusalChargesNothing | backend/internal/auththrottle/limiter.go:79-116 | a refused or saturated Begin charges nothing |
| ThrottleSafety.StepBounded | backend/internal/auththrottle/limiter.go:211-229 | the table never outgrows maxEntries |
| ThrottleSafety.SaturationMeansFull | backend/internal/auththrottle/limiter.go:211-229 | saturation is reported only when every unrequested entry is locked or in flight |
| ThrottleSafety.WaitIsLongest | backend/internal/auththrottle/limiter.go:79-102 | the wait of a refusal is the longest any requested entry asks for, and one asks for it |
| ThrottleSafety.StepSafe | backend/internal/auththrottle/limiter.go:79-167 | attempts in flight on a key named once stay within its budget, and a locked entry has none |
| ThrottleSafety.ReachableSafe | backend/internal/auththrottle/limiter.go:61-167 | every table reachable from an empty limiter is conserved and bounded, and safe for every key no Begin names twice |
| ThrottleSafety.BeginKeepsLock | backend/internal/auththrottle/limiter.go:79-116 | whatever a Begin names and however often, it leaves a locked entry alone and is refused until the deadline if it names the key |
| ThrottleSafety.LockSurvivesStep | backend/internal/auththrottle/limiter.go:79-229 | before a lock's deadline no sweep, eviction, admission or end touches the entry |
| ThrottleSafety.LockNeverShortened | backend/internal/auththrottle/limiter.go:119-229 | over any run with a monotone clock, a key no Begin names twice, once locked until u, is refused by every Begin before u |
| ThrottleSafety.FailuresSpaced | backend/internal/auththrottle/limiter.go:119-194 | two failures of a key past its limit are at least the first one's lockout apart |
| ThrottleSafety.FailuresTakeTheirLockouts | backend/internal/auththrottle/limiter.go:119-194 | failures that climb past the limit one by one take at least the sum of the lockouts between them |
| ThrottleHistory.RefusedIff | backend/internal/auththrottle/limiter.go:79-102 | a Begin is refused if and only if a key it names is locked, or has attempts in flight that may lock it, and waits for the longest of them |
| ThrottleHistory.FailuresAddUp | backend/internal/auththrottle/limiter.go:119-186 | over any run a key's entry counts every failed attempt, as long as each event comes less than ResetAfter after a failure, no success clears it and no Begin has to make room for others |
| ThrottleHistory.LimitLocks | backend/internal/auththrottle/limiter.go:119-194 | from a clean start, MaxFailures failures and so many more, each less than ResetAfter after the one before, keep every Begin that names the key out until the last one plus that lockout |
| ThrottleHistory.KeptOutForFailures | backend/internal/auththrottle/limiter.go:119-180 | a key keeps a Begin out only if its failures since it was last clean and its attempts in flight together reach its limit |
| ThrottleHistory.SuccessClears | backend/internal/auththrottle/limiter.go:130-137 | a success of a policy that resets leaves neither failures nor a lock |
| ThrottleHistory.OldFailuresForgotten | backend/internal/auththrottle/limiter.go:79-116 | once no attempt is in flight and every failure is ResetAfter old, the next attempt let in starts from zero |
| ThrottleHistory.DueBeginSweeps | backend/internal/auththrottle/limiter.go:196-206 | once a minute a Begin drops every entry without attempt, lock or fresh failure |
| ThrottleHistory.EvictionFills | backend/internal/auththrottle/limiter.go:211-229 | a Begin that evicts an entry with failures not old yet leaves the table exactly full, for distinct keys |
| ThrottleLocks.LockHolds | backend/internal/auththrottle/limiter.go:79-229 | a key locked until u is refused by every Begin before u, if its policy's locks outlast what is in flight or no Begin names it twice |
| ThrottleLocks.LocksHoldIff | backend/internal/auththrottle/limiter.go:79-229 | no run breaks a lock of the policy, whatever its Begins repeat, if and only if its locks outlast what is in flight |
| ThrottleLocks.DoublingOutlasts | backend/internal/auththrottle/limiter.go:188-194 | for doubling lockouts that is: at most one failure is allowed, or a success does not reset |
| ThrottleLocks.RepeatedNameShortensLock | backend/internal/auththrottle/limiter.go:79-167 | for every other policy, the run from an empty limiter that breaks a lock |
| ThrottleSafety.LockoutDoublesIff | backend/internal/auththrottle/limiter.go:188-194 | lockout(n) is min(Base 2^n, Max) for every n, if and only if no multiple of Base falls where int64 overflows |
| ThrottleSafety.LockoutDoubles | backend/internal/auththrottle/limiter.go:188-194 | so it doubles for every policy whose maximum is at most 2^62 |
| TranslationSafety.InsertSound | backend/internal/httpapi/ai_translation_submit.go:253-271 | inserting planned items with conflicts ignored leaves at most one active item per object and changes no other row |
| TranslationSafety.RequeueSound | backend/internal/httpapi/ai_translation_review.go:669-700 | requeueing any chosen items keeps one active item per object and every request accounted for |
| TranslationSafety.StepInv | backend/internal/httpapi/ai_translation_execute.go:26-629 | every step of executor, reviewers, runner and cancellation keeps the joint invariant |
| TranslationSafety.SettleInv | backend/internal/httpapi/ai_translation_execute.go:548-629 | settlement never settles a job while one of its items is queued or requesting |
| TranslationSafety.ResendInv | backend/internal/httpapi/ai_translation_review.go:583-720 | a resend that queues an item reopens its run's job in the same transaction |
| TranslationSafety.TraceInv | backend/internal/httpapi/ai_translation_execute.go:26-629 | the invariant holds in every state of every interleaving |
| TranslationTheorems.DoubtPersists | backend/internal/httpapi/ai_translation_execute.go:26-272 | while a request's outcome is unknown, no request leaves, and the doubt ends only when the row leaves requesting with an outcome or an uncertain row is resent acknowledging it |
| TranslationTheorems.ClosedBetweenRequests | backend/internal/httpapi/ai_translation_execute.go:209-280 | between two requests for one item, its row left requesting with the first one's outcome, or someone resent the uncertain item acknowledging that |
| TranslationDoubt.NoSilentDoubleCharge | backend/internal/httpapi/ai_translation_execute.go:209-272 | between two requests for one item, the world reported what became of the first while the row waited for it, or someone confirmed that it may be charged twice |
| TranslationDoubt.LostAnswerWaits | backend/internal/httpapi/ai_translation_execute.go:236-272 | once an answer is lost, or the service answers with a status outside the six that refuse, no other request for the item leaves before an acknowledging resend |
| TranslationDoubt.UncertainWaits | backend/internal/httpapi/ai_translation_review.go:653-700 | an item left uncertain by a loss, a restart or a cancellation is sent again only once someone confirms it |
| TranslationOutcomes.StepOutcome | backend/internal/httpapi/ai_translation_execute.go:190-629 | what becomes of each row's state, code, texts and progress in each step, over the columns: every error of a request, every stop, restart, cancellation, answer and review |
| TranslationOutcomes.StepDoing | backend/internal/httpapi/ai_translation_execute.go:26-272 | what the executor is doing after each step: what it still waits for, which chunk it is at, or that it ended |
| TranslationOutcomes.RequeueOutcome | backend/internal/httpapi/ai_translation_review.go:653-700 | an item chosen for a resend comes back, for review or for the queue, if and only if its row allows it and no other item of its object is active |
| TranslationOutcomes.ReopensQueued | backend/internal/httpapi/ai_translation_review.go:583-720 | the runs a resend reopens are exactly those it queues an item of |
| TranslationOutcomes.StepRuns | backend/internal/httpapi/ai_translation_review.go:704-720 | what becomes of each run and job in each step but its settlement |
| TranslationOutcomes.PlannedAreBusy | backend/internal/httpapi/ai_translation_submit.go:253-271 | after a submission every planned object has an active item, a new row of its key and source if and only if it had none |
| TranslationOutcomes.LeavesIff | backend/internal/httpapi/ai_translation_execute.go:209-233 | a request leaves exactly when its run is not cancelled and all its items are still queued |
| TranslationOutcomes.ResultWasDelivered | backend/internal/httpapi/ai_translation_execute.go:282-543 | a text that is up for review was the answer of the item's own request, or the lines of its finished pass |
| TranslationTheorems.RequestsAccounted | backend/internal/httpapi/ai_translation_execute.go:209-280 | announced requests are the recorded, the acknowledged and the one in doubt |
| TranslationTheorems.StepSettlesOnce | backend/internal/httpapi/ai_translation_review.go:272-343 | a value is applied exactly when its item goes from ready to accepted, and settled items never change |
| TranslationTheorems.OneActivePerObject | backend/internal/httpapi/ai_translation_submit.go:253-271 | in every reachable state at most one item per dedup key is queued, requesting, ready or uncertain |
| TranslationTheorems.TerminalForever | backend/internal/httpapi/ai_translation_review.go:335-343 | accepted, rejected and cancelled items stay so, applied at most once |
| TranslationTheorems.NoStrandedItem | backend/internal/httpapi/ai_translation_execute.go:548-629 | an item still to be sent has a queued or running job, or the runner abandoned that job |
| TranslationRuns.NothingStranded | backend/internal/httpapi/ai_translation_review.go:583-720 | in any order of resend, settle, cancellation and crash without a runner failure, no queued item is stranded |
| TranslationRuns.StrandedIff | backend/internal/httpapi/job_runner.go:748-785 | an item still to be sent has no job that will send it, if and only if the runner failed that job and nobody reopened it since |
| TranslationRuns.StrandedStays | backend/internal/httpapi/ai_translation_review.go:704-720 | a stranded item stays as it is through every continuation in which nobody reopens its job |
| TranslationRuns.RunnerFailureStrands | backend/internal/httpapi/job_runner.go:748-785 | every submission has a run, from an empty database, that strands its first item |
| TranslationRuns.TraceAlive | backend/internal/httpapi/workflow_run_actions.go:103-110 | in every reachable state a run that is not cancelled has an item that is not |
| TranslationRuns.SettlementVerdict | backend/internal/httpapi/ai_translation_execute.go:545-629 | a settled run fails if and only if no item reached review, succeeds if and only if some did and none stopped, and is partial otherwise |
| TranslationResume.SegmentIsPass | backend/internal/httpapi/ai_translation_execute.go:467-543 | chunks appended one by one are one uninterrupted pass, for any chunk size and translator |
| TranslationResume.StepResumes | backend/internal/httpapi/ai_translation_execute.go:467-543 | every step keeps each checkpoint the translation of the chunks before its index |
| TranslationResume.CheckpointIsPrefix | backend/internal/httpapi/ai_translation_execute.go:467-543 | an unfinished item's checkpoint is the pass over exactly the first min(index * size, n) lines of its fixed source |
| TranslationResume.CheckpointIsPrefixIff | backend/internal/httpapi/ai_translation_execute.go:467-543 | for any item that holds if and only if the checkpoint has as many lines |
| TranslationResume.StoredResultDropsCheckpoint | backend/internal/httpapi/ai_translation_execute.go:380-388 | the run, from an empty database, after which it does not hold |
| TranslationResume.ResumeEqualsUninterrupted | backend/internal/httpapi/ai_translation_execute.go:467-543 | whatever yields, crashes and resends came before, a stored text is that of one uninterrupted pass |
| TranslationStore.TranslationStore.SubmitRun | backend/internal/httpapi/ai_translation_submit.go:253-274 | the insert loop is the protocol's submit step; nothing is kept when every object is active |
| TranslationStore.TranslationStore.RequeueItem | backend/internal/httpapi/ai_translation_review.go:669-700 | one requeue, with its four answers |
| TranslationStore.TranslationStore.ReopenJobs | backend/internal/httpapi/ai_translation_review.go:704-720 | exactly the settled jobs among the named runs are reopened |
| TranslationStore.TranslationStore.ResendItems | backend/internal/httpapi/ai_translation_review.go:583-647 | the resend loop is the protocol's resend step |
| TranslationStore.TranslationStore.RetryRun | backend/internal/httpapi/ai_translation_review.go:725-770 | the retry loop is the protocol's retry step, and queues nothing when nothing could be requeued |
| TranslationStore.RunChunks | backend/internal/httpapi/ai_translation_execute.go:467-543 | one execution's chunk loop resumes at its checkpoint and, when it ends, has the whole pass |
| TranslationRequests.KeyNamesObject | backend/internal/httpapi/ai_translation.go:143-148 | two dedup keys are equal if and only if they name the same language, category and object |
| TranslationRequests.NameBatches | backend/internal/httpapi/ai_translation.go:206-220 | batches tile the names in order, each within its limits, and none but the last could take one more name |
| CircleTables.CaptureSeesChanges | backend/internal/circleidentity/snapshot.go:40-70 | two captures around a merge differ exactly where captured columns changed, and show both values |
| CircleTables.LocalChain | backend/internal/circleidentity/merge.go:53-115 | statements that touch only rows in scope compose, series' works included |
| CircleStatements.CopyRows | backend/internal/circleidentity/merge.go:59-90 | each source row becomes part of exactly one target row, combined or copied, and no other row changes |
| CircleStatements.CopyCarries | backend/internal/circleidentity/merge.go:59-90 | after a copy the target has exactly the names of both circles |
| CircleStatements.CombineLosesNothing | backend/internal/circleidentity/merge.go:66-90 | combining two rows loses no rating, note, favourite, cover, view, watch or activation, and keeps the newer catalog item |
| CircleStatements.CombineAssociates | backend/internal/circleidentity/merge.go:66-90 | of three circles merged one after the other, it does not matter which two go first |
| CircleMerge.MergeAliases | backend/internal/circleidentity/merge.go:58-59 | the target has both circles' aliases and the source's name |
| CircleMerge.RepointExternal | backend/internal/circleidentity/merge.go:60-62 | external numbers move; per provider and kind the target's primary stays, or the source's becomes it if the target had none, and there is one if either had |
| CircleMerge.MovedCarries | backend/internal/circleidentity/merge.go:81-96 | a table whose rows are repointed has all names on the target and none on the source |
| CircleSeries.MergeOneSeries | backend/internal/circleidentity/merge.go:139-155 | a series moves or joins its namesake; its works follow it, and works go only with their series |
| CircleSeries.MergeSeries | backend/internal/circleidentity/merge.go:116-157 | the loop leaves no series at the source and loses no work |
| CircleSeries.TitlesCarried | backend/internal/circleidentity/merge.go:116-157 | the target has exactly the series titles of both circles |
| CircleSubscriptions.MergeSubscriptions | backend/internal/circleidentity/merge.go:84-93 | both circles' subscriptions carry over with what either asked for, less exactly those to series that a circle subscription now covers |
| CircleSubscriptions.MergeKeepsCovered | backend/internal/circleidentity/merge.go:84-93 | no account holds a circle subscription and one to its series after a merge |
| CircleSubscriptions.SubscribeCreator | backend/internal/httpapi/creator_subscriptions.go:344-424 | which of the four answers is given, if and only if; the new row is the one asked for; every other row stays but the series rows it replaces; the covering invariant is kept |
| CircleIdentity.MergeRelations | backend/internal/circleidentity/merge.go:53-115 | the whole merge: local, constraint-keeping, nothing left at the source, no name lost, nothing made up |
| CircleIdentity.MergeRetains | backend/internal/circleidentity/merge.go:109-113 | a metadata snapshot of either circle is the target's after the merge if and only if fewer than two of both circles' snapshots of its provider are newer |
| CircleIdentity.MergeLosesNoName | backend/internal/circleidentity/merge.go:53-115 | in nine tables the target has exactly the names of both circles |
| CircleIdentity.MergeTakesTable | backend/internal/circleidentity/merge.go:53-115 | in those tables every source row comes with its values, combined where both circles had one; rows the merge does not meet stay |
| CircleIdentity.MergeLosesNoWork | backend/internal/circleidentity/merge.go:116-157 | every work of a source series is under the target's series of that title |
| CircleIdentity.StatesCopied | backend/internal/circleidentity/merge.go:66-72 | a user's state of the target keeps what it had and takes only what it lacked |
| CircleCompare.SnapshotRowsAlike | backend/internal/circleidentity/snapshot.go:89-110 | two rows of a snapshot print alike if and only if they are the same row, exponents included |
| CircleCompare.StoredRowsAlike | backend/internal/circleidentity/snapshot.go:89-110 | a row of a snapshot and one of the database print alike if and only if they are the same row and hold no number of a million or more |
| CircleRestore.Restore | backend/internal/circleidentity/snapshot.go:111-183 | a restore validates every difference first, then gives exactly the restored tables, or writes nothing |
| CircleRestore.RefusedIffChanged | backend/internal/circleidentity/snapshot.go:111-142 | Undo is refused if and only if a row the merge changed has changed since or is back, or the merge wrote a number of a million or more |
| CircleRestore.RestoreExact | backend/internal/circleidentity/snapshot.go:143-181 | every row the merge changed gets its value from before, or its absence; every other row stays as it is |
| CircleRestore.UndoInvertsMerge | backend/internal/circleidentity/merge.go:158-190 | undoing at once gives back every captured column, and is permitted if and only if the merge wrote no number of a million or more |
| CircleRestore.OthersKeptIff | backend/internal/circleidentity/snapshot.go:134-181 | rows of other circles survive an Undo if and only if no number the merge freed was given out again |
| CircleNumbers.SourceNumbersFreed | backend/internal/circleidentity/merge.go:84-93 | a merge frees the number of every subscription of the source |
| CircleNumbers.FreedNumberIsOverwritten | backend/internal/circleidentity/snapshot.go:134-181 | after any merge, a freed number given to another circle's follower: Undo is permitted exactly as it was at once, and overwrites that row |
| CircleNumbers.ReusedNumberIsOverwritten | backend/internal/circleidentity/snapshot.go:134-181 | it happens: the merge itself, and the subscription numbered after it |
| CircleNumbers.LargeNumberIsRefused | backend/internal/circleidentity/snapshot.go:94-142 | it happens: a follower moved to circle 1000000, nothing changed since, and Undo refused |
| CircleUndo.MergesUnwind | backend/internal/circleidentity/merge.go:158-190 | any run of merges, nested or not, undoes from the last to the first leaving only undone reviews, permitted at every step if and only if none wrote a number of a million or more |
| CircleUndo.MergesUndoInReverse | backend/internal/circleidentity/merge.go:158-190 | right after n merges, undoing them in reverse is permitted under the same condition and is the identity on captured columns apart from review rows |
| CircleUndo.NestedWaits | backend/internal/circleidentity/merge.go:164-173 | a merge into a circle that was itself merged on cannot be undone first |
| CircleUndo.CoversKeptIff | backend/internal/circleidentity/merge.go:66-72 | cover codes survive merge and Undo if and only if no user had one for the source |
| CircleUndo.UndoKeepsCovered | backend/internal/circleidentity/merge.go:158-190 | a permitted Undo keeps the covering invariant, whatever was subscribed in between |
| CircleStore.CircleStore.Merge | backend/internal/circleidentity/merge.go:11-52 | merge, snapshots and review commit together; invalid circles change nothing |
| CircleStore.CircleStore.Undo | backend/internal/circleidentity/merge.go:158-190 | Undo does the restore exactly when it may, keeping schema, reviews and the covering invariant |
| CircleStore.CircleStore.Subscribe | backend/internal/httpapi/creator_subscriptions.go:344-424 | a subscription keeps the store's invariants |
| KeyedLock.StepCounts | backend/internal/httpapi/cache_path_lock.go:23-60 | every step keeps refs equal to waiters, holders and leavers, and the token with the holder |
| KeyedLock.RunSound | backend/internal/httpapi/cache_path_lock.go:23-60 | every interleaving stays sound |
| KeyedLock.MutualExclusion | backend/internal/httpapi/cache_path_lock.go:23-60 | at most one ticket holds a key |
| KeyedLock.DeletesItsOwnEntry | backend/internal/httpapi/cache_path_lock.go:40-59 | deleting by key never removes another generation's entry |
| KeyedLock.ReleaseNeverBlocks | backend/internal/httpapi/cache_path_lock.go:40-59 | putting the token back never blocks |
| KeyedLock.WaiterCanTake | backend/internal/httpapi/cache_path_lock.go:23-60 | no token is lost: a waiter can take it unless another ticket holds the key |
| KeyedLock.NoEntryLeaks | backend/internal/httpapi/cache_path_lock.go:23-60 | once all tickets are gone the map is empty |
| KeyedLock.ReleaseOnce | backend/internal/httpapi/cache_path_lock.go:40-51 | however often release is called in a run, a token taken goes back exactly once and a ticket is uncounted exactly once |
| KeyedLock.SecondSendBreaks | backend/internal/httpapi/cache_path_lock.go:39-51 | without the once, a second send lets a waiter hold a key another ticket holds |
| CachePathLocker.CachePathLocker.Enter | backend/internal/httpapi/cache_path_lock.go:24-35 | the look-up, creation and count under the mutex are the machine's enter step |
| CachePathLocker.CachePathLocker.Take | backend/internal/httpapi/cache_path_lock.go:37-39 | receiving the token is the machine's take step, and makes a release closure whose once has not run |
| CachePathLocker.CachePathLocker.PutBack | backend/internal/httpapi/cache_path_lock.go:40-51 | a call of release is the machine's step: the first one sends, with room in the channel, a later one changes nothing |
| CachePathLocker.CachePathLocker.Leave | backend/internal/httpapi/cache_path_lock.go:40-59 | the uncount and the deletion at zero are the machine's leave step |
| CoverFiles.CoverDirectory.Publish | backend/internal/download/cover.go:29-98 | what is kept, published or failed, the files left, and every state a reader could see: exactly those of its calls one by one |
| CoverRuns.RunsAlone | backend/internal/download/cover.go:29-98 | while a publication holds the gate its files go through the states its own calls make, whatever steps of others lie between |
| CoverRuns.NeverWithoutCover | backend/internal/download/cover.go:29-98 | over any interleaving of any publications under the gate, each failing anywhere, a work that has a cover has one at every step from then on, if targets are listed |
| CoverRuns.KeepsExisting | backend/internal/download/cover.go:69-82 | a publication that does not replace leaves every file alone once the work has a cover |
| CoverRuns.ReplacedWhileHeld | backend/internal/download/cover.go:86-96 | a replacement that went through leaves exactly its target among listed covers while it holds the gate |
| CoverFiles.ReplaceLeaves | backend/internal/download/cover.go:86-96 | a replace leaves exactly its target among listed covers if and only if the target is listed |
| QuietCut.FindQuietCut | backend/internal/asr/transcript.go:67-94 | the cut is even, in range, and at the middle of a quietest 300 ms window of the searched tail |
| QuietCut.SearchedTail | backend/internal/asr/transcript.go:67-80 | the searched windows are those that begin within the last searchSeconds of whole frames |
| QuietCut.QuietestUnique | backend/internal/asr/transcript.go:85-91 | the latest quietest window is unique, so ties are settled |
| Transcription.ChunkCues | backend/internal/asr/transcript.go:19-39 | the cues of exactly the segments that have one, in order: each from its segment's start to its end, moved to the chunk's bounds or a second long where the end is not after the start, with the segment's words on one line |
| Transcription.FieldsJoined | backend/internal/asr/transcript.go:23-24 | one pass over a text gives its words with single spaces between them |
| Transcription.DroppedIff | backend/internal/asr/transcript.go:22-31 | a segment is dropped if and only if it has no text, no usable time or starts after its chunk |
| Transcription.CutExact | backend/internal/httpapi/asr_jobs.go:218-224 | a chunk that is not the last ends exactly on a millisecond, at least 240150 ms in |
| Transcription.AtMost180Chunks | backend/internal/httpapi/asr_jobs.go:198-200 | one track commits at most 180 chunks over all executions, restarts and retries |
| Transcription.CuesNeverOverlap | backend/internal/httpapi/asr_jobs.go:265-283 | cues of different chunks never overlap and lie below the stored offset |
| Transcription.TranscriptReadsBack | backend/internal/httpapi/asr_jobs.go:295-304 | the stored document reads back as the cues of all chunks |
| Transcription.Task.Commit | backend/internal/httpapi/asr_jobs.go:265-283 | the chunk's cues and the next offset commit together and extend the tiling of the audio |
| Transcription.Task.Transcribe | backend/internal/httpapi/asr_jobs.go:146-308 | every execution keeps the tiling, each chunk cut where it is quiet and stored with the cues of the reply to it; a request in flight is never sent again; a finished track was sent to its last 100 ms, has cues and fits its limit |
| WebVtt.RenderVtt | backend/internal/asr/transcript.go:47-54 | the loop builds the rendered document |
| WebVtt.TimeRoundTrip | backend/internal/asr/transcript.go:56-58 | a WebVTT reader recovers every time from its timestamp |
| WebVtt.DocumentRoundTrip | backend/internal/asr/transcript.go:47-58 | a WebVTT reader recovers every list of printable cues |
| WebVtt.ReplacesFirst | backend/internal/asr/transcript.go:23-24 | the replacement shortens the first timing arrow and goes on after it |
| WebVtt.ArrowRemains | backend/internal/asr/transcript.go:23-24 | one pass of the replacement leaves an arrow if and only if the text held a longer one |
| Names.LessIsTotalOrder | backend/cmd/schema-baseline/main.go:511-511 | byte order on names is a strict total order |
| Names.SortStrings | backend/cmd/schema-baseline/main.go:511-525 | the queue is sorted in place, a permutation in order |
| SeedOrder.CollectDependencies | backend/cmd/schema-baseline/main.go:468-504 | counts and reverse edges are those of the reference graph without self-references |
| SeedOrder.RunKahn | backend/cmd/schema-baseline/main.go:505-526 | the loop ends and builds an order greedily, with nothing ready left out |
| SeedOrder.OrderSeedData | backend/cmd/schema-baseline/main.go:468-531 | a permutation, referenced tables first, lexicographically least; the cycle error if and only if there is a cycle |
| SeedOrder.GreedyIsLeast | backend/cmd/schema-baseline/main.go:511-526 | a greedy order precedes every other valid order |
| SeedOrder.OrderedHasNoCycle | backend/cmd/schema-baseline/main.go:527-530 | an ordered graph has no cycle |
| SeedOrder.StuckHasCycle | backend/cmd/schema-baseline/main.go:527-530 | tables left over contain a cycle |
| GzipWire.HeadOnceFirst | backend/internal/httpapi/compression.go:129-149 | a response carries at most one final head, before any byte of its body |
| GzipWire.OneCoding | backend/internal/httpapi/compression.go:151-172 | coded and uncoded bytes never mix |
| GzipWriter.GzipResponseWriter.WriteHeader | backend/internal/httpapi/compression.go:129-149 | informational heads pass, the final one decides the mode once |
| GzipWriter.GzipResponseWriter.Write | backend/internal/httpapi/compression.go:151-172 | a write adds its bytes to what the client will decode; nothing is sent while buffering |
| GzipWriter.GzipResponseWriter.StartGzip | backend/internal/httpapi/compression.go:174-189 | the head with the coding goes out before the buffered bytes |
| GzipWriter.GzipResponseWriter.Flush | backend/internal/httpapi/compression.go:193-206 | after a flush the client has everything written |
| GzipWriter.GzipResponseWriter.ReadFrom | backend/internal/httpapi/compression.go:210-217 | a source is written whole, whatever the mode |
| GzipWriter.GzipResponseWriter.Finish | backend/internal/httpapi/compression.go:225-240 | the finished response decodes to what was written under the head declared |
| GzipWriter.CodingDeclared | backend/internal/httpapi/compression.go:174-189 | the coding is declared, and the length removed, if and only if the body went through the encoder |
| GzipWriter.FirstDecides | backend/internal/httpapi/compression.go:129-149 | the first call that is a final status, a write or a flush decides: its status, and the fields set last before it |
| GzipWriter.Serve | backend/internal/httpapi/compression.go:38-48 | for every sequence of calls the client decodes the concatenation of the writes, under the status and fields of the first call that decides, coded if and only if it may be and is worth it |
| ReleaseFeed.RecentIff | backend/internal/httpapi/creator_subscription_refresh.go:538-547 | a dated release is recent if and only if its day ended within the grace window before activation |
| ReleaseFeed.EditionIff | backend/internal/httpapi/creator_subscription_refresh.go:526-536 | which works count as an edition rather than a release |
| ReleaseFeed.RecentMonotone | backend/internal/httpapi/creator_subscription_refresh.go:538-547 | who subscribed earlier sees at least what a later subscriber sees |
| ReleaseFeed.Insert | backend/internal/httpapi/creator_subscription_refresh.go:658-664 | one entry per user, code and event type |
| ReleaseFeed.ReleaseStore.SeedBaseline | backend/internal/httpapi/creator_subscriptions.go:523-542 | the first activation settles every code present then, and a later one settles none |
| ReleaseFeed.ReleaseStore.Subscribe | backend/internal/httpapi/creator_subscriptions.go:397-419 | a subscription that starts active has its baseline |
| ReleaseFeed.ReleaseStore.Activate | backend/internal/httpapi/creator_subscriptions.go:585-602 | the catalog at activation is the baseline, and a settled code never brings an entry again |
| ReleaseFeed.ReleaseStore.AddFeedItems | backend/internal/httpapi/creator_subscription_refresh.go:642-673 | every subscriber in whose window the release falls has its entry, and no one else gets one |
| ReleaseFeed.ReleaseStore.MarkSeen | backend/internal/httpapi/creator_subscription_refresh.go:675-691 | codes are settled source by source, each for the given reason, wherever the process stops |
| ReleaseFeed.ReleaseStore.CandidatesWait | backend/internal/httpapi/creator_subscription_refresh.go:358-430 | the candidates are the catalog codes not settled for a source that someone actively follows, a voice actor's only while they are found |
| ReleaseFeed.ReleaseStore.ProcessOne | backend/internal/httpapi/creator_subscription_refresh.go:549-629 | a code is settled only if it is invalid, too old for every follower, or synchronized and unavailable, or after every follower in whose window its date falls has an entry; it is deferred or fails only if it needs its metadata |
| ReleaseFeed.ReleaseStore.Run | backend/internal/httpapi/creator_subscription_refresh.go:549-629 | a run settles no release that someone should hear of and did not, as the answers of the world say, and tells no one else; each candidate is settled, deferred or failed, and exactly those that need it are synchronized or deferred, the newest first up to the bound |
| ReleaseHistory.Perform | backend/internal/httpapi/creator_subscription_refresh.go:549-629 | over any list of pulls, subscriptions, activations, unsubscriptions and runs that stop anywhere: no entry twice, none for a settled code, and no candidate lost of a subscription that stays |
| ReleaseHistory.ConsideredIsTold | backend/internal/httpapi/creator_subscription_refresh.go:549-629 | a code settled while someone followed the whole creator was too old for them, or they have its entry if it falls in their window |
| ReleaseHistory.BaselineNeverFed | backend/internal/httpapi/creator_subscriptions.go:520-542 | a code in the catalog at a first activation brings no entry, whatever follows |
| BonusParent.IsSubsequence | backend/internal/dlsite/bonus.go:227-242 | the greedy scan finds a needle if and only if it has three characters and embeds in order |
| BonusParent.Match | backend/internal/dlsite/bonus.go:133-149 | the evidence, with embedding by its definition |
| BonusParent.SelectParent | backend/internal/dlsite/bonus.go:154-178 | the unique code with the strongest evidence, where evidence is a shared kana reading or name of related works; ambiguity if and only if two codes share it |
| BonusParent.OneSelection | backend/internal/dlsite/bonus.go:151-153 | what a selection means leaves one answer |
| BonusParent.OrderAndRepetitionIrrelevant | backend/internal/dlsite/bonus.go:151-153 | permuting or repeating candidates changes nothing |

## Left out

- The SQL engine, HTTP handlers, JSON bodies, permissions and list queries; each statement or transaction is one atomic step over maps of rows.
- Login throttle: time is an unbounded count of nanoseconds with 0 for the zero time; only the doubling of a lockout is in 64-bit arithmetic.
- Translate with AI: the provider, content policy and permission checks are free choices of the environment; the translator and the chunk size are parameters; a source counts as unchanged when its text is, where the program compares hashes.
- Translate with AI: one executor runs one job at a time, as the claim of a job requires; leases and heartbeats are not part of this model.
- TranslationResume.ResumeEqualsUninterrupted: asks for a deterministic translator that answers as many lines as it gets, without which the uninterrupted pass is not defined.
- TranslationRuns.NothingStranded: excludes a job failed by the runner, for which StrandedIff says when it does not hold.
- TranslationStore.TranslationStore.SubmitRun: takes the plan as given; reading works, tracks and names to plan it is not part of this model.
- Circles: column values no statement reads are opaque; how a row's columns read is a parameter that tells rows apart, with each column of one kind. Integers are below 2^53, which floating point holds exactly, texts are valid UTF-8, which JSON keeps, and no nullable text is spelt as an absent value prints.
- Circles: the source and snapshot of a review, which nothing rewrites, are kept beside the tables rather than in a cell, so snapshots need not contain snapshots.
- Circles: what triggers keep is not part of this model: the owner column of catalog items, and `work_primary_circle_projection`, whose rows go with their circle and follow the works' circles when a merge or an Undo changes them.
- Circles: unique indexes over other columns than party and name are not part of this model; a restore is checked against the constraints once, at its end.
- CircleRestore.RestoreExact: claims captured columns; CoversKeptIff states what becomes of the one merged column that is not captured.
- CircleSubscriptions.SubscribeCreator: covers circles and series, not voice actors, who are no circles; requests are taken as serialised, as the handler's mutex makes them.
- CoverRuns.NeverWithoutCover: takes the keyed lock as the gate of cover publications, which has the same shape; a target with an extension the program does not list is the case of ReplaceLeaves.
- CoverFiles.CoverDirectory.Publish: retries of a file-system call, the temporary file and a destination that is no regular file are not part of this model.
- Transcription: segment times are whole milliseconds, where the program rounds seconds; how many bytes a document takes is a parameter; the audio of a track is a fixed sequence of bytes that the decoder cuts at the offset.
- Transcription.TranscriptReadsBack: asks for cues without a timing arrow, because ArrowRemains shows the replacement can leave one.
- Gzip writer: the underlying writer never fails, sends what it is given in order, and parses media types and lengths as parameters say; a status of 101, the pool of encoders and the negotiation of codings are not part of this model.
- GzipWriter.GzipResponseWriter.SetHeader: handlers set header fields only before they decide the head, as net/http asks them to.
- ReleaseFeed.ReleaseStore.Run: subscriptions and catalogs change between runs, not during one; a subscription created while a run is under way is not among those it loaded.
- ReleaseFeed.ReleaseStore.AddFeedItems: a series' subscribers are those whose series lists the code when the run loads them; a code that joins the series later is already settled.
- BonusParent: recognising a bonus, folding widths and reading products are not part of this model; hints and candidates carry normalized fields.
- Availability Watch, DLsite fetching, media decoding, sessions, configuration, proxies and the frontend would add only input and output or easy claims.
