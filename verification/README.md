# Link shortener: protocols, stores and reports

A Dafny model of the parts of the link shortener where several processes share state and may stop at any
moment, with proofs of what the repository promises about them. Paths are relative to the repository.

Dates are integers (milliseconds, or day numbers for business days), SHA-256 is taken to be injective, and
fresh random values are taken not to repeat. Clocks, tokens, the network, the disk and the image worker
appear as parameters that an adversary chooses.

**Image jobs** (`ImageJob*.dfy`, `ImageStore*.dfy`, `ImageProtocol*.dfy`). `ImageJobPolicy` is the ledger
policy as the source writes it: one row, fourteen versioned commands, a restart planner, and the run-time
check `IsValid` (`assertImageJobInvariant`). `ImageJobEffects` tells the same commands rule by rule and
field by field, and carries the row invariant `IsSound`. `ImageJobRuns`, `ImageJobFencing` and
`ImageJobRecovery` are about whole histories of one row. `ImageStore` adds the registrations and the links,
once as functions over a store value and once as a class that updates its maps; `ImageStoreAgreement` is
about every run of store operations, and `ImageStoreLaws` says what each of them promises its callers.
`ImageJobShapes` tells the run-time checks by states. `ImageProtocol` is the upload service itself: any number of uploads
and recoveries, each stopped before its next `await`, share the ledger, the registrations, the links and
the files. They interleave freely, stall, lose replies, fail and crash; removals that were started together
may complete long after their caller has given up, and so may transactions whose caller was told of an error
(`ImageProtocolWrites`). `ImageProtocolSafety` proves the invariant program point by program point and
`ImageProtocolRuns` reads the promises off it. `ImageProtocolProgress` shows that they are not kept by doing
nothing. The exact end of a call, when the calls it makes all work, is given by `ImageProtocolRepeats` for an
upload that repeats a request, `ImageProtocolFailures` for the driver's catch blocks, `ImageProtocolCompensation`
for a compensation, `ImageProtocolRestarts` and `ImageProtocolRecovery` for a recovery outside and inside the
compensation states; `ImageProtocolFaults` is about single failures and lost replies.
`ImageProtocolStarvation` and `ImageProtocolStuckRow` are about the rows that no recovery moves, and
`ImageProtocolRenames` says when a removed file stays away. `ImageProtocolScenarios` builds, for every
creatable request, the runs from the empty world behind the findings below, and `ImageProtocolDrives` holds
what these have in common.

**The singleton image worker** (`WorkerLease*.dfy`). The heartbeat object as a class, and a timed machine of
any number of processes over one expiring Redis key. Commands may be executed late or never, replies may be
lost up to the command timeout. Timers are on time, a command deadline that coincides with a tick is
handled first, all clocks agree, and a key is live up to and including its expiry millisecond.

**Authentication epoch** (`Auth*.dfy`). Login, restoration with rotation, global reset, logout and session
checks interleave at their `await` points over the token store and the session store (`AuthEpoch`,
`AuthEpochRuns`); `AuthEpochCalls` gives the end of each call when nothing interferes.

**Delivered countries** (`Delivered*.dfy`, `MapSums.dfy`). The observer's Redis script with its undo
branches, the evaluation of a range of ten-minute buckets with its diagnosis, and the publisher's reconciliation.
`DeliveredEndToEnd` puts them together with the redirect requests and the Admin report.

**Reports and counters** (`ReportWindow.dfy`, `AdminReport*.dfy`, `TrafficShield.dfy`, `LikeSearch.dfy`,
`RedirectAccounting.dfy`).

## What came out

- `assertImageJobInvariant` is not inductive: a `publishing` row without dimensions passes it, and the
  command that would publish the row then fails on the trailing check. That is the only way in which the
  trailing check can fail, and no row that `createImageJob` starts ever gets there
  (`TrailingCheckFailsExactly`, `CheckedInvariantIsNotInductive`, `SoundRowsStaySound`).
- By the ledger policy the planner's advice is always accepted, except on a `compensation_required` row whose
  compensation attempts are used up, where the advised claim is refused. Such rows come only from re-opening
  a `compensating` or `manual_review` row that has no attempts left (`AdviceIsAcceptedExactly`,
  `PlannerLedRowsAreNeverExhausted`, `ReopenedReviewDefeatsPlanner`). The service gets there: its catch blocks
  (src/modules/uploads/service.ts:331-342 and 346-356) compensate whatever unready row they read back after the
  rename, so an upload that renames late re-opens a review of its own job. There is such a run for every
  request (`DriverReopensReview`). No recovery that starts from then on changes the row or removes its public
  file, however its calls fare (`ExhaustedNeverChanges`, `ExhaustedRowsStall`).
- One such row stops all recovery, against the intent stated in src/modules/uploads/service.ts:614-615. The
  drainer takes one row a pass, the one that has rested longest (src/server.ts:86-90,
  src/testing/in-memory-store.ts:787-796). A pass whose calls all work moves every row that needs recovery
  except exactly a compensation without attempts (`RecoveryMovesExactly`). Such a row stays the same row in
  every run, with everybody else at work, if and only if nobody is on the way to a review of it
  (`ExhaustedRowStaysExactly`); runs here are without reference errors, neither from I/O nor in a drive of the
  row's own recovery. So once it rests longest, it alone heads the drainer's list at every later moment
  (`ExhaustedRowStaysFirst`; for the drainer alone also `ExhaustedRowStarvesTheRest`). For every two requests
  there is a run after which the second, later row needs recovery and, as long as further uploads are created
  later still, is never taken (`SecondRowStarves`).
- The service does not follow the advice on an expired `compensating` row whose public file is still there.
  The planner advises `require_compensation` (src/modules/uploads/job-ledger-policy.ts:574-581), but
  `#compensatePublishedJob` skips that command for such a row (service.ts:394-427), removes the three files
  (440-444) and issues `mark_compensated` with the expired token (445-452). That is refused with STALE_LEASE
  however the calls fare, and reconcileOnStartup rethrows it (609-632). The next pass of the drainer finds the
  files gone and completes
  (`CompensationOutcome`, `ExpiredCompensationNeverCompletes`, `RecoveryOutcome`, `SecondRecoveryCompletes`;
  a run from the empty world: `ExpiredCompensationTakesTwo`).
- `recover_ready` can never be accepted while the service is honest about registrations: a registration is
  created only together with `ready`. For the same reason no compensation ever removes a registration
  (`RecoverReadyIsDeadCode`, `AgreementIsCoherent`).
- "Compensated" does not mean that the public file is gone: for every request there is a run in which a driver
  that stalled before its rename brings the file back between two removals, and the row is then marked
  compensated (`CompensatedWithFinal`). A file that is gone from a job in compensation stays away for good if
  and only if no call stands before a rename to it (`RemovedFinalStaysAwayExactly`). A revived file is never
  registered, linked or answered.
- An interrupted job whose public file is not there is never compensated: it is retried and served, or failed
  when its attempts are used up; one whose public file is there always is (`RestartOutcome`).
- The heartbeat constructor accepts durations for which two workers can consume at once, for example
  15000/4999/1000. Exactly which ones is a remainder test on the three durations (`ExclusionIsExact`).
- The size test at the end of `evaluateDeliveredCountryRange` can never fire (`NoStateIsLeftOver`, used
  by `EvaluateRange`).
- `normalizeDeliveredCountry` takes some single characters for countries, since upper-casing makes two letters
  of them: a sharp s counts as SS, a ligature as FF, FI, FL or ST (`OneCharacterIsACountry`).
- MariaDB rejects exactly the filtered events that follow a filtered event of a later day of the same slot,
  whole weeks apart, as when one of day 0 follows one of day 7; the in-memory store counts them in the lifetime
  total. Over every stream of events the two stores differ in that total alone, by the number of rejected
  events (`StoresAgree`, `RejectedExactly`, `StoresDifferByRejected`, `LateEventIsRejected`).

## Model

| member | source | states |
|---|---|---|
| ImageJobEffects.SwitchIsRules | src/modules/uploads/job-ledger-policy.ts:300-508 | on every checked row the command switch accepts exactly the commands that four independent rules (state graph, lease, proofs, arguments) permit, and leaves exactly the row that each field's own law gives |
| ImageJobEffects.TrailingCheckFailsExactly | src/modules/uploads/job-ledger-policy.ts:300-508 | a fresh permitted command fails on the trailing invariant check if and only if it would publish a row that never recorded its dimensions |
| ImageJobEffects.CheckedInvariantIsNotInductive | src/modules/uploads/job-ledger-policy.ts:591-673 | for every creatable request there is a row that passes the run-time invariant and on which a permitted command nevertheless fails |
| ImageJobEffects.CreatedJobIsSound | src/modules/uploads/job-ledger-policy.ts:269-298 | every created row satisfies the strengthened invariant |
| ImageJobEffects.SoundRowsStaySound | src/modules/uploads/job-ledger-policy.ts:300-508 | on a sound row a command is accepted exactly when it is fresh and permitted, the next row is sound, and claim_processing never fails with ATTEMPTS_EXHAUSTED |
| ImageJobEffects.AcceptedIsRowStep | src/modules/uploads/job-ledger-policy.ts:300-508 | any accepted command raises the version, leaves no final row, becomes ready only from publishing by a ready command and never leaves the compensation states |
| ImageJobShapes.CheckIsShape | src/modules/uploads/job-ledger-policy.ts:591-673 | the run-time check, told by states: it passes exactly the rows of a well-formed request that have their state's shape, whose counters and times agree, and whose lease, sizes and code are well-formed |
| ImageJobShapes.CreationIsExact | src/modules/uploads/job-ledger-policy.ts:269-298 | a request gets a row exactly when its fields are well-formed and it is made before its ownership ends |
| ImageJobShapes.FailureOutcome | src/modules/uploads/job-ledger-policy.ts:357-380 | a recorded failure is compensated exactly when the row was publishing or may have published; otherwise the private files must be gone, and the row waits for a retry exactly when one is asked for and attempts are left, and else fails |
| ImageJobShapes.TextsAreExact | src/modules/uploads/job-ledger-policy.ts:769-770 | the alphabets and lengths of lease holders and tokens, and so of the other identifiers and of error codes (592-595, 846-848) |
| ImageJobShapes.StorageKeysStayInside | src/modules/uploads/job-ledger-policy.ts:841-844 | a storage key has at most 255 characters, is relative, has no empty, `.` or `..` step and no character that a path treats specially |
| ImageJobRuns.CreatedJobsNeverBreak | src/modules/uploads/job-ledger-policy.ts:269-508 | after any history of a created row below the version limit, a fresh permitted command is accepted: neither the trailing check nor exhausted attempts can stop it |
| ImageJobRuns.RowSummarizesLog | src/modules/uploads/job-ledger-policy.ts:300-508 | after any history the counters, attempt times, dimensions, error code and lease of a row are what its log of accepted commands says, and the request is untouched |
| ImageJobRuns.LogIsOrdered | src/modules/uploads/job-ledger-policy.ts:744-750 | the successful commands of a row form one total order: the i-th names version i, and their times never go back |
| ImageJobRuns.HistoriesMoveForward | src/modules/uploads/job-ledger-policy.ts:300-508 | over any history ready and compensated absorb every command, the compensation region is never left, versions and clocks only grow |
| ImageJobRuns.BudgetBoundsHistory | src/modules/uploads/job-ledger-policy.ts:300-508 | without reissues, version plus remaining budget never grows along a history: the measure pays for every accepted command |
| ImageJobRuns.HistoriesTerminate | src/modules/uploads/job-ledger-policy.ts:300-508 | a created row accepts at most 4*maxAttempts + 2*maxCompensationAttempts + 3 commands if none merely reissues require_compensation or a manual review |
| ImageJobRecovery.BoundIsReached | src/modules/uploads/job-ledger-policy.ts:300-508 | the bound is tight: every request has such a history of exactly that length |
| ImageJobFencing.HeldUntilReleased | src/modules/uploads/job-ledger-policy.ts:782-795 | a lease once held is still the row's lease, or was handed back by its live holder, or has run out by the row's clock |
| ImageJobFencing.LeasePeriodsNeverOverlap | src/modules/uploads/job-ledger-policy.ts:752-795 | a later claim is dated no earlier than the expiry of the earlier lease, unless the live holder gave it back |
| ImageJobFencing.DisplacedTokenIsFenced | src/modules/uploads/job-ledger-policy.ts:782-786 | once a row is not held by a token, and tokens are not minted twice, no holder-only command with that token is ever accepted again |
| ImageJobRecovery.AdviceIsAcceptedExactly | src/modules/uploads/job-ledger-policy.ts:520-589 | for every sound row and all evidence the ledger policy accepts the command of the planner's advice if and only if the row is not an exhausted compensation, and is otherwise refused with ATTEMPTS_EXHAUSTED |
| ImageJobRecovery.AdviceFollowsEvidence | src/modules/uploads/job-ledger-policy.ts:520-589 | for any row that passes the run-time check, sound or not: a live lease is only waited for, nothing unobserved is taken for present or absent, and a ready row is questioned exactly when it is not intact |
| ImageJobRecovery.WorkingPlanIsExact | src/modules/uploads/job-ledger-policy.ts:539-588 | for every sound row exactly when the planner advises a retry, a recovered publication, a compensation or a review: by state, lease, attempts and the three observations alone |
| ImageJobRecovery.OtherPlanIsExact | src/modules/uploads/job-ledger-policy.ts:520-589 | likewise exactly when it waits, enqueues, claims, completes a compensation, cleans up or does nothing |
| ImageJobRecovery.PlannerAnswersExactly | src/modules/uploads/job-ledger-policy.ts:520-530 | it answers every sound row unless the time is no time or lies before the row's last change |
| ImageJobRecovery.PlannerLedRowsAreNeverExhausted | src/modules/uploads/job-ledger-policy.ts:574-588 | a row never becomes an exhausted compensation in a history that re-opens compensating and manual_review rows only where the planner would |
| ImageJobRecovery.ReopenedReviewDefeatsPlanner | src/modules/uploads/service.ts:352-356 | require_compensation on a manual review without attempts left is accepted, after which the planner advises a claim that is refused |
| ImageJobRecovery.ExhaustedReviewIsReachable | src/modules/uploads/job-ledger-policy.ts:466-484 | every request has a history that ends in such a manual review |
| ImageJobRecovery.RecoverySelectionIsExact | src/testing/in-memory-store.ts:939-950 | both drivers select the same rows: exactly the unfinished ones for which the planner says wait for no evidence |
| ImageStores.ImageStore.ReserveImageJob | src/testing/in-memory-store.ts:702-715 | the decision is the policy's on the rows found under the request key and the job id; a new row enters the ledger and both indexes, a reuse or an error changes nothing |
| ImageStores.ImageStore.TransitionImageJob | src/testing/in-memory-store.ts:721-726 | replaces exactly the one row by its policy successor, or throws and changes nothing |
| ImageStores.ImageStore.PublishImageJobReady | src/testing/in-memory-store.ts:728-759 | registration and ready row appear together or not at all, with every refusal in the source's order; an already ready row needs its registration |
| ImageStores.ImageStore.AssertImageJobCompensationSafe | src/testing/in-memory-store.ts:776-785 | blocked exactly by an attached registration or by some link that names the path |
| ImageStores.ImageStore.CompleteImageJobCompensation | src/testing/in-memory-store.ts:761-774 | the safety check, the command and the removal of an unattached registration are one step |
| ImageStores.ImageStore.CountReadyForScope | src/testing/in-memory-store.ts:675-679 | the number of unattached registrations of the owner and session |
| ImageStores.ImageStore.HasReadyImageRegistration | src/testing/in-memory-store.ts:798-806 | present exactly when the row is attachable and registered to its own owner and session |
| ImageStores.ImageStore.AddLink | src/testing/in-memory-store.ts:212-276 | link and attachment appear together or not at all, with every refusal in order; a managed image needs a registration of the caller and the given session that has not expired |
| ImageStores.ImageStore.DeleteOwnedLink | src/testing/in-memory-store.ts:278-286 | removes the link exactly when it is the caller's, and nothing else |
| ImageStores.ImageStore.MarkUploadsAttached | src/testing/in-memory-store.ts:827-854 | all named uploads become attached, or none does; each of them is registered to the caller and the given session and has not expired |
| ImageStoreAgreement.HonestKeepsAgreement | src/testing/in-memory-store.ts:702-785 | every honest store operation keeps ledger, indexes, registrations and links in agreement |
| ImageStoreAgreement.UnpublishedIsUnseen | src/testing/in-memory-store.ts:776-785 | under agreement a row that is not ready has neither registration nor link, so compensating it is never blocked |
| ImageStoreAgreement.AgreementIsCoherent | src/testing/in-memory-store.ts:798-806 | under agreement a ledger-owned path is registered exactly when its job is ready and exactly when hasReadyImageRegistration says so, and a referenced path is attached |
| ImageStoreAgreement.LedgerUploadsAndLinksAgree | src/testing/in-memory-store.ts:702-785 | after any honest run from the empty store all of that holds of every job |
| ImageStoreAgreement.Perform | src/testing/in-memory-store.ts:702-785 | an honest operation on the store object keeps its maps in agreement |
| ImageStoreAgreement.AskAfter | src/testing/in-memory-store.ts:776-806 | after any honest run the object itself answers: registered exactly when the row is ready, and safe to compensate whenever the row is in compensation |
| ImageStoreAgreement.RecoverReadyIsDeadCode | src/modules/uploads/job-ledger-policy.ts:381-391 | under agreement a recover_ready whose registration claim is true is never accepted |
| ImageStoreAgreement.PublishStaysWithin | src/testing/in-memory-store.ts:728-759 | a publication with given limits keeps the unattached registrations within them, per owner and session and in total |
| ImageStoreAgreement.RunsStayWithinCapacity | src/testing/in-memory-store.ts:728-774 | with fixed limits passed on every publication, no interleaving of publish, attach, link, unlink and compensate exceeds them |
| ImageStoreLaws.RegistrationsAreRightlyHeld | src/testing/in-memory-store.ts:212-276 | over every honest run a registration is its job's own, and it became attached, and got the expiry it has, only by operations that presented exactly the user and the session of the job's request before it expired |
| ImageStoreLaws.RegistrationsChangeByOwners | src/testing/in-memory-store.ts:827-854 | an honest operation leaves a registration as it is or attaches it in that way: only state, first attachment time and expiry change |
| ImageStoreLaws.OwnersAreServed | src/testing/in-memory-store.ts:223-243 | an operation of the owner, in the session of the request and in time, is not refused |
| ImageStoreLaws.LinkIsAcceptedExactly | src/testing/in-memory-store.ts:212-243 | a link is refused exactly for a taken code, a domain without creation, or a managed image that is not usable by this user in this session or is not kept into the future, in that order |
| ImageStoreLaws.LinkIsStored | src/testing/in-memory-store.ts:244-275 | an accepted link is stored, its managed image attached, and nothing else changed |
| ImageStoreLaws.BatchIsAcceptedExactly | src/testing/in-memory-store.ts:834-846 | a batch is attached exactly when every path in it is usable by the caller in the session |
| ImageStoreLaws.BatchIsAttached | src/testing/in-memory-store.ts:847-853 | an accepted batch keeps its first attachment times, takes the new expiry and changes no other registration |
| ImageStoreLaws.PublicationIsExact | src/testing/in-memory-store.ts:728-759 | a publication goes through exactly for a ready row, unchanged, or with the row's own registration, room for it and a permitted command; row and registration then change together and nothing else does |
| ImageStoreLaws.RepeatedRequestIsReused | src/testing/in-memory-store.ts:702-715 | a known request key gets the row stored under it exactly for the same request, and otherwise the conflict, in order |
| ImageStoreLaws.NewRequestGetsRow | src/testing/in-memory-store.ts:702-715 | a new request key gets a row of its own exactly when the request is well-formed and its job id is free |
| ImageStoreLaws.CompensationIsExact | src/testing/in-memory-store.ts:761-774 | a compensation completes exactly when the row permits the command, and replaces that row alone |
| ImageStoreLaws.LinksChangeByOwners | src/testing/in-memory-store.ts:212-286 | a link appears only by its own accepted operation, goes only by its owner's hand and is never changed |
| ImageStoreLaws.RowsChangeByCommands | src/testing/in-memory-store.ts:702-774 | a row changes only by a permitted command addressed to it and appears only by its own reservation |
| ImageProtocolWrites.StepWrites | src/modules/uploads/service.ts:210-638 | a step changes ledger, indexes and registrations exactly by the statement that its call sends, and not at all when that fails |
| ImageProtocolSafety.CommitIsGood | src/infrastructure/mysql-image-job-store.ts:415-462 | a transaction that commits after its caller was told of an error keeps the invariant, publication included |
| ImageProtocolSafety.TransitionReplies | src/infrastructure/mysql-image-job-store.ts:415-462 | a versioned command on a remembered row takes effect only if the row is still that one; whether or not the reply arrives, stores agree and nothing becomes ready |
| ImageProtocolSafety.PublicationReplies | src/modules/uploads/service.ts:296-316 | publishing after the rename leaves stores in agreement and every ready row with its file, whether or not the reply arrives |
| ImageProtocolSafety.CompletionReplies | src/modules/uploads/service.ts:445-453 | completing a compensation takes effect only on the remembered row and publishes nothing |
| ImageProtocolSafety.SnapshotCondemns | src/modules/uploads/service.ts:390-454 | whoever remembers a row in compensation may remove its public file: the row can no longer become ready |
| ImageProtocolSafety.OthersStaySafe | src/modules/uploads/service.ts:248-638 | what a stopped call knows survives every step of every other call |
| ImageProtocolSafety.UploadStepIsGood | src/modules/uploads/service.ts:210-246 | reserving and discarding the input keep the invariant |
| ImageProtocolSafety.ClaimStepIsGood | src/modules/uploads/service.ts:248-311 | the driver's ledger commands before the rename keep it |
| ImageProtocolSafety.RenameStepIsGood | src/modules/uploads/service.ts:278-314 | the worker's output and the rename keep it, also when the row has moved on meanwhile |
| ImageProtocolSafety.PublishStepIsGood | src/modules/uploads/service.ts:316-334 | the one step that makes a row ready keeps it |
| ImageProtocolSafety.AnswerStepIsGood | src/modules/uploads/service.ts:380-388 | a job found ready is answered only when it is served |
| ImageProtocolSafety.ReadingStepIsGood | src/modules/uploads/service.ts:335-356 | both catch blocks may read any row and go on to any of their branches |
| ImageProtocolSafety.CheckingStepIsGood | src/modules/uploads/service.ts:336-351 | the file checks of both catch blocks keep the invariant |
| ImageProtocolSafety.CleanupStepIsGood | src/modules/uploads/service.ts:346-377 | finishing, removing private files and recording the failure keep it |
| ImageProtocolSafety.StartCompensationIsGood | src/modules/uploads/service.ts:390-413 | starting a compensation from any remembered row keeps it |
| ImageProtocolSafety.RemovingStepIsGood | src/modules/uploads/service.ts:440-444 | the concurrent removals keep it, also those that complete after the caller has moved on |
| ImageProtocolSafety.EndCompensationIsGood | src/modules/uploads/service.ts:425-453 | recording an unsafe compensation and completing one keep it |
| ImageProtocolSafety.ObserveStepIsGood | src/modules/uploads/service.ts:514-524 | a registration observed by recovery belongs to a row that is ready for good |
| ImageProtocolSafety.ActStepIsGood | src/modules/uploads/service.ts:525-604 | the first effect of every planned action keeps the invariant |
| ImageProtocolSafety.RecoverRemovalIsGood | src/modules/uploads/service.ts:577-592 | recovery's own removals keep it |
| ImageProtocolSafety.ActorStepIsGood | src/modules/uploads/service.ts:210-638 | every step of every call keeps the protocol invariant |
| ImageProtocolRuns.EventIsGood | src/modules/uploads/service.ts:210-638 | so does every crash, timeout, late commit, late removal, disturbance of private files and use of an image |
| ImageProtocolRuns.ReadyMeansServed | src/modules/uploads/service.ts:278-378 | crash-safe publication: after any run every ready row has its public file and its committed registration |
| ImageProtocolRuns.ReadyIsForGood | src/modules/uploads/service.ts:390-454 | a row that is ready at some moment is the same row at every later one, with file and registration still there |
| ImageProtocolRuns.AnswersStayTrue | src/modules/uploads/service.ts:380-388 | an upload answered with a path is served from then on |
| ImageProtocolRuns.LinksShowFiles | src/testing/in-memory-store.ts:212-276 | after any run every link with a managed image names one that is served |
| ImageProtocolRuns.OnlyCondemnedFinalsVanish | src/modules/uploads/service.ts:556-592 | a public file that disappears belonged to a job in the irreversible compensation states |
| ImageProtocolRenames.FinalsAppearByRename | src/modules/uploads/service.ts:307-310 | a public file that is not there appears in a step if and only if that step is a working rename of a call for it with its output in place |
| ImageProtocolRenames.RemovedFinalStaysAwayExactly | src/modules/uploads/service.ts:307-310 | the absent file of a job in compensation, compensated or not yet, stays absent over all runs if and only if no call stands before a rename to it |
| ImageProtocolScenarios.CompensatedWithFinal | src/modules/uploads/service.ts:440-453 | for every usable request some run from the empty world ends with the row compensated and its public file in place |
| ImageProtocolProgress.UploadCompletes | src/modules/uploads/service.ts:210-334 | from every good world an upload under fresh names whose own calls all work ends after nine steps with its path answered, the row ready after one attempt and registered, the public file in place of the private ones, and nothing else changed |
| ImageProtocolProgress.QueuedCompletes | src/modules/uploads/service.ts:262-334 | so does, after seven steps, any call that holds a queued row that is due |
| ImageProtocolRepeats.RepeatOutcome | src/modules/uploads/service.ts:233-246 | an upload that repeats a request is answered with the first job's path when that job is ready, and no second job, row or file comes of it |
| ImageProtocolFailures.FailedStepIsCaught | src/modules/uploads/service.ts:248-334 | which catch block takes over when a call of the driver fails without effect |
| ImageProtocolFailures.CatchOutcome | src/modules/uploads/service.ts:346-378 | the exact end of the outer catch block on every row it may read: answered if ready, compensated if a public file may be left, failed with its code if still at work, and otherwise left alone |
| ImageProtocolFailures.FailedPublicationOutcome | src/modules/uploads/service.ts:331-378 | the exact end after a publication that failed or seemed to: answered if it had taken effect, and otherwise compensated with all files removed |
| ImageProtocolFailures.UnsafeIsRecorded | src/modules/uploads/service.ts:425-439 | a compensation found unsafe by its live holder is asked for again after the lease, or reviewed by hand when its attempts are used up |
| ImageProtocolFailures.ReviewOutcome | src/modules/uploads/service.ts:609-632 | a recovery that met a used image puts the row under review exactly when nobody holds it and it is neither finished nor under review |
| ImageProtocolFaults.ReservationKeepsOwnInput | src/modules/uploads/service.ts:235-245 | a reserved upload keeps its input exactly when the reservation was answered with a job of its own; otherwise the input goes first, and only an answered upload drives on |
| ImageProtocolFaults.FailedCallGivesUp | src/modules/uploads/service.ts:335-388 | a failed look, removal or statement never answers a path |
| ImageProtocolFaults.LostReplyIsCaught | src/modules/uploads/service.ts:248-311 | a driver's command whose reply is lost has moved the row, and the driver goes on as if it had failed |
| ImageProtocolFaults.LookIsExact | src/modules/uploads/service.ts:514-524 | each look of a recovery sees what is there, or nothing when it fails |
| ImageProtocolFaults.UnseenRowIsReviewed | src/modules/uploads/service.ts:597-607 | a row whose private files could not be seen is put under review |
| ImageProtocolFaults.RemovalMayOutliveItsCall | src/modules/uploads/service.ts:440-444 | when a call dies with removals on their way, each of them may still strike at any later moment |
| ImageProtocolCompensation.CompensationOutcome | src/modules/uploads/service.ts:390-454 | the exact end, within eight steps, of a compensation of any current row whose calls all work: compensated without its files unless final (ILLEGAL_TRANSITION), expired (STALE_LEASE, files gone all the same), not due (NOT_DUE) or without attempts (ATTEMPTS_EXHAUSTED) |
| ImageProtocolRecovery.ExpiredCompensationNeverCompletes | src/modules/uploads/service.ts:394-452 | once the lease of a compensating row has run out, no steps of a compensation of it, however they fare, change the ledger |
| ImageProtocolRecovery.RecoveryOutcome | src/modules/uploads/service.ts:514-604 | the exact end of a recovery of a row in compensation whose looks and calls all work: an expired compensation completes if and only if its public file is already gone, a due one if and only if it has an attempt left |
| ImageProtocolRestarts.RestartOutcome | src/modules/uploads/service.ts:512-607 | the exact end of a recovery outside the compensation states whose looks and calls all work: an interrupted job goes into compensation if and only if its public file is there, and ends compensated; otherwise it fails if its attempts are used up, and else is retried and ends served, as does every job not yet claimed |
| ImageProtocolRecovery.ExhaustedRowsStall | src/modules/uploads/service.ts:572-576 | a recovery of a due compensation without attempts whose calls all work comes to its end with ledger and files as they were |
| ImageProtocolStarvation.ExhaustedNeverChanges | src/modules/uploads/service.ts:514-632 | however its looks and calls fare, no step of a recovery of such a row changes ledger or files |
| ImageProtocolStarvation.RecoveryMovesExactly | src/modules/uploads/service.ts:504-604 | for every row that needs recovery, some steps of a recovery whose calls all work change ledger or files if and only if the row is not a compensation without attempts |
| ImageProtocolStarvation.ExhaustedRowStarvesTheRest | src/infrastructure/startup-recovery.ts:127-142 | with the drainer alone at work, whose batch is one row: once such a row is due and older than every other unsettled row, every pass takes it and changes nothing |
| ImageProtocolStuckRow.ExhaustedRowStaysExactly | src/modules/uploads/service.ts:210-638 | such a row stays the same row over all legal runs without reference errors, with every other call, crash and late commit, if and only if nobody is on the way to a review of it |
| ImageProtocolStuckRow.ExhaustedRowStaysFirst | src/testing/in-memory-store.ts:787-796 | in all those runs with later uploads, such a row that rests longest is at every moment, once due, alone first in the list of rows to recover |
| ImageProtocolScenarios.SecondRowStarves | src/modules/uploads/service.ts:609-632 | for every two usable requests a run from the empty world ends with the first such a row and the second, reserved later, in need of recovery; in all ordinary runs from there the first alone is listed first |
| ImageProtocolRecovery.SecondRecoveryCompletes | src/modules/uploads/service.ts:572-592 | an expired compensation with its public file there: the first recovery removes the files and leaves the row, the second completes it |
| ImageProtocolScenarios.ExpiredCompensationTakesTwo | src/modules/uploads/service.ts:572-592 | every usable request with two attempts has a run from the empty world to such a row, followed by the refused and the completing recovery |
| ImageProtocolScenarios.DriverReopensReview | src/modules/uploads/service.ts:331-342 | every usable request has a run from the empty world in which the driver's catch block turns a review without attempts into a compensation without attempts, the public file in place |
| ImageProtocolScenarios.SamplesAreUsable | src/modules/uploads/service.ts:210-230 | two requests of the service's own shape, with 3 and 5 attempts, meet the hypotheses of all these runs |
| WorkerLease.ImageWorkerHeartbeat.Acquire | src/modules/uploads/worker-heartbeat.ts:98-114 | sends a command unless stopped, already ready or already active |
| WorkerLease.ImageWorkerHeartbeat.StartTimer | src/modules/uploads/worker-heartbeat.ts:88-93 | first tick at once and the interval from now, once |
| WorkerLease.ImageWorkerHeartbeat.OnTimer | src/modules/uploads/worker-heartbeat.ts:132-139 | a tick sends nothing while a command is active, after the loss or after stop |
| WorkerLease.ImageWorkerHeartbeat.SettlePublish | src/modules/uploads/worker-heartbeat.ts:141-185 | a refusal costs the lease of a started heartbeat at once; otherwise it is lost only on a failure after which no further attempt fits into the confirmed lease |
| WorkerLease.ImageWorkerHeartbeat.IsRefreshWindowExhausted | src/modules/uploads/worker-heartbeat.ts:175-179 | whether the next decision could come after the confirmed lease |
| WorkerLease.LiveThrough | src/modules/uploads/worker-heartbeat.ts:88-186 | any life of the object, told by its calls alone: which of them send a command, which one announces the loss (the first that costs the lease, by a refusal or by the three durations), and when the timer fires next |
| WorkerLeaseRuns.ToleratedBreakIsInTime | src/modules/uploads/worker-heartbeat.ts:175-179 | under safe timing a tolerated failure leaves the next decision before the key can expire |
| WorkerLeaseRuns.StepKeepsGood | src/modules/uploads/worker-heartbeat.ts:141-179 | under safe timing every event keeps: who consumes holds the live key and decides in time |
| WorkerLeaseRuns.ConsumersHoldTheKey | src/modules/uploads/worker-heartbeat.ts:46-57 | in every reachable world under safe timing a consuming process holds the unexpired key |
| WorkerLeaseRuns.RefusedIsSilent | src/workers/image-worker.ts:75-77 | for all durations: once a process has been answered that another one owns the key, it neither consumes nor sends, in any run |
| WorkerLeaseRuns.AbandonedCommandTakesKey | src/modules/uploads/worker-heartbeat.ts:141-152 | for all durations: a command whose deadline has passed, or whose process has died, may still take an expired key for a full lease, at any later moment |
| WorkerLeaseRuns.ExclusionIsExact | src/modules/uploads/worker-heartbeat.ts:73-86 | of the durations that the constructor accepts, exactly those that pass the remainder test never let two processes consume at once |
| WorkerLeaseRuns.UnsafeTimingOverlaps | src/modules/uploads/worker-heartbeat.ts:175-179 | any other accepted durations have a run in which two processes consume at once |
| WorkerLeaseRuns.DefaultsAreSafe | src/modules/uploads/worker-heartbeat.ts:74-81 | the defaults 15000/5000/1000 pass |
| WorkerLeaseRuns.WholeIntervalsAreSafe | src/modules/uploads/worker-heartbeat.ts:73-82 | so does every choice where the interval divides the lease and holds two timeouts |
| WorkerLeaseRuns.AcceptedIsNotSafe | src/modules/uploads/worker-heartbeat.ts:73-82 | 15000/4999/1000 is accepted and does not |
| AuthStores.AuthStore.CreateRememberToken | src/testing/in-memory-store.ts:579-589 | stores the token and returns the epoch of the same moment |
| AuthStores.AuthStore.RestoreRememberToken | src/testing/in-memory-store.ts:605-637 | succeeds exactly with the stored validator before the stored expiry, for the token's user, and then writes the new validator and expiry; a wrong or late one costs the token; no other token changes |
| AuthStores.AuthStore.ResetAllAuthCredentials | src/testing/in-memory-store.ts:639-659 | the next epoch, with the administrator's new token as the only one; at the integer limit nothing changes |
| AuthStores.LiveThrough | src/testing/in-memory-store.ts:575-663 | any life of the store, told by its calls and answers alone: a restoration succeeds exactly with the validator written last, before the expiry written with it, for the user the token was made for |
| AuthStores.RestoreTooLate | src/testing/in-memory-store.ts:621-625 | from its expiry on the right validator is refused and costs the token |
| AuthStores.RestoreTwice | src/testing/in-memory-store.ts:605-637 | a validator presented again is refused and costs the token; no other token changes |
| AuthStores.RestoreAfterLogout | src/testing/in-memory-store.ts:661-663 | after deleteRememberToken nothing restores the selector |
| AuthStores.RestoreAfterReset | src/testing/in-memory-store.ts:605-659 | after a reset every other selector is refused, and all tokens there are belong to the next epoch |
| AuthEpoch.RestoringIsGood | src/infrastructure/mysql-store.ts:752-813 | a restoration keeps tokens current and validators distinct, uses its validator up and returns the epoch the token was born in |
| AuthEpoch.ResettingIsGood | src/infrastructure/mysql-store.ts:815-862 | a reset leaves no token of an earlier epoch |
| AuthEpoch.CreateStepIsGood | src/modules/auth/service.ts:163-183 | whatever reset comes between, the session that gets the selector is of the token's own epoch |
| AuthEpoch.StepIsGood | src/modules/auth/service.ts:163-332 | every step of every call keeps the authentication invariant |
| AuthEpochRuns.StoredTokensAreCurrent | src/testing/in-memory-store.ts:579-663 | over all interleavings every stored token was born in the current epoch |
| AuthEpochRuns.ValidatorsRestoreOnce | src/modules/auth/service.ts:224-260 | no validator ever restores two sessions |
| AuthEpochRuns.AcceptedSessionsAreCurrent | src/modules/auth/service.ts:207-222 | a session accepted after some moment is of an epoch no earlier than that moment's, and so are the credential it came from and the token it names |
| AuthEpochRuns.RevokedForGood | src/modules/auth/service.ts:262-309 | after a reset a selector of an earlier epoch has no stored token and no session naming it is accepted, ever |
| AuthEpochRuns.NoKnownStaleSessionIsReturned | src/modules/auth/service.ts:194-204 | a login that has learned of a newer epoch returns no session of an older one |
| AuthEpochRuns.SessionsAreEarned | src/modules/auth/service.ts:163-309 | no session exists for a user who has not shown the password; a remembered one was made for the very user its token was made for, strictly before the expiry last written for its selector |
| AuthEpochRuns.NothingOutlivesItsExpiry | src/modules/auth/service.ts:207-211 | stored tokens are as last written, and every accepted session was read before its expiry |
| AuthEpochRuns.CallsReturnTheirOwn | src/modules/auth/service.ts:163-332 | whatever interleaves, a login returns a session of its own user, a restoration one of its own cookie, a reset one of its administrator, a check the session it was asked for |
| AuthEpochCalls.LoginOutcome | src/modules/auth/service.ts:163-205 | the exact end of an undisturbed login for every pattern of failures: session, selector and left-over token |
| AuthEpochCalls.OvertakenLoginOutcome | src/modules/auth/service.ts:178-188 | a login overtaken by a reset returns a session of the newer epoch and removes its first one |
| AuthEpochCalls.StaleLoginStartsAgain | src/modules/auth/service.ts:189-204 | if that session cannot be written, token and stale session go and the password logs in once more |
| AuthEpochCalls.RestoreOutcome | src/modules/auth/service.ts:224-260 | a restoration returns a session exactly for a good cookie of an existing user whose calls work, with a new validator and thirty more days |
| AuthEpochCalls.RestoreUsesUp | src/modules/auth/service.ts:231-239 | an executed restoration touches its own token alone and leaves its validator worthless |
| AuthEpochCalls.RestoreCleansUp | src/modules/auth/service.ts:240-259 | exactly when the token is still stored afterwards |
| AuthEpochCalls.ResetOutcome | src/modules/auth/service.ts:262-309 | a reset returns a session of the next epoch, with its token as the only one, exactly when its calls work |
| AuthEpochCalls.CheckOutcome | src/modules/auth/service.ts:207-222 | a session is returned exactly when it is stored, unexpired, of the current epoch and its user exists |
| AuthEpochCalls.LogoutOutcome | src/modules/auth/service.ts:311-332 | a logout removes the session and the token it names, each unless its own removal fails, and nothing else |
| DeliveredObserver.NormalizeCountry | src/modules/reporting/observer.ts:133-136 | trimmed and upper-cased, always a country code or `??` |
| DeliveredObserver.CountriesAreKept | src/modules/reporting/observer.ts:133-136 | what is a country code stays it |
| DeliveredObserver.PaddedCodesAreKept | src/modules/reporting/observer.ts:133-136 | two letters in any case between white space give their capitals |
| DeliveredObserver.OneCharacterIsACountry | src/modules/reporting/observer.ts:133-136 | exactly six single characters give a country code |
| DeliveredObserver.BucketStart | src/modules/reporting/observer.ts:124-131 | the aligned ten minutes that contain the moment |
| DeliveredObserver.DeliveredBucket.Observe | src/modules/reporting/observer.ts:138-173 | 1 and exactly one more observation, or -2 and the bucket exactly as it was, whichever command fails |
| DeliveredObserver.ObservationsAreConserved | src/modules/reporting/observer.ts:138-173 | over any sequence of calls the observed count is the sum of the country counts and the number of calls that returned 1, and each country counts its own |
| DeliveredObserver.BucketsAreSmall | src/modules/reporting/completeness.ts:12 | a bucket never has more than 677 country fields |
| DeliveredCompleteness.EvaluateDeliveredCountryRange | src/modules/reporting/completeness.ts:70-178 | the loops compute a function of the two row lists as multisets: order cannot matter, and the final size test never fires |
| DeliveredCompleteness.SumBucket | src/modules/reporting/completeness.ts:143-154 | a bucket's sum in whatever order its cells come; refused exactly when some count or the sum is out of range |
| DeliveredCompleteness.NoStateIsLeftOver | src/modules/reporting/completeness.ts:168-170 | usable states that cover every bucket are exactly as many as the buckets |
| DeliveredTotals.CompleteExactly | src/modules/reporting/completeness.ts:114-178 | complete if and only if all rows are in place, every bucket has positive counted rows and a sealed, sourced state row that carries their sum, and the sum of all counted rows fits; the total is that sum |
| DeliveredDiagnosis.IncompleteExactly | src/modules/reporting/completeness.ts:114-169 | an incomplete range is blamed on its rows exactly when one is out of place; otherwise the complete buckets are the sound ones before the first that is not, and the reason is what is wrong with that one |
| DeliveredDiagnosis.RangesAreExact | src/modules/reporting/completeness.ts:76-83 | a range is accepted exactly when it spans one to 1008 buckets between two ten-minute marks |
| DeliveredPublisher.NormalizeSnapshot | src/modules/reporting/completeness.ts:227-250 | lets through exactly the well-formed buckets whose positive counts add up to the observed count |
| DeliveredPublisher.BucketsAreNormal | src/modules/reporting/completeness.ts:227-250 | every nonempty bucket that the observer can produce passes |
| DeliveredPublisher.NormalSourcesAreBuckets | src/modules/reporting/completeness.ts:227-250 | and nothing else passes: every snapshot that does is what the observer leaves of some bucket |
| DeliveredPublisher.PublishedCountryMap | src/modules/reporting/completeness.ts:252-276 | exists exactly for rows of this bucket without duplicates or bad counters, and holds their counted cells |
| DeliveredPublisher.ReconcileDeliveredCountryBucket | src/modules/reporting/completeness.ts:185-212 | unchanged exactly when state and rows publish this very bucket |
| DeliveredAgreement.PublisherAndReaderAgree | src/modules/reporting/completeness.ts:70-212 | a range that reconciles unchanged in every bucket, with a fitting sum, is complete for the reader with the sum of the observed counts |
| ReportWindow.WindowIsLatestCompleted | src/modules/reporting/report-window.ts:33-92 | refused only for an unusable clock or seal lag; otherwise the window of its full length that ends on the last boundary the horizon has passed |
| ReportWindow.WindowsAreRanges | src/modules/reporting/report-window.ts:33-64 | the range evaluation accepts every window that starts on a representable date and sees as many buckets |
| ReportWindow.WindowInNumbers | src/modules/reporting/report-window.ts:33-92 | six hours up to the last ten-minute mark behind seal lag and tolerance, or one or seven days up to the last midnight in UTC or India |
| ReportWindow.WindowsAreBuiltExactly | src/modules/reporting/report-window.ts:33-64 | a window exists exactly for a whole-second clock and a seal lag of one second to an hour where counts are sealed |
| AdminReportBuild.BuildAdminCountryOutcomeReport | src/modules/reporting/admin-report-policy.ts:60-140 | a report exists exactly for reportable rows; each enabled total is the sum over all rows although zero rows are dropped, and the listing is the positive rows in order |
| AdminReportBuild.CheckedSum | src/modules/reporting/admin-report-policy.ts:161-171 | the sum, refused exactly when it exceeds the counter range |
| AdminReportBuild.ReportIsUnique | src/modules/reporting/admin-report-policy.ts:60-140 | the report depends on the rows but not on their order |
| AdminReportLaws.TotalsFollowFamilies | src/modules/reporting/admin-report-policy.ts:60-84 | each of the five totals is shown exactly when its own family has been counted from the window's start on, and the delivered one is the evaluation's |
| AdminReportLaws.LinesAreRows | src/modules/reporting/admin-report-policy.ts:86-130 | one line for every row with something to show, with that row's counters and their sum, by falling total and then by country |
| AdminReportLaws.PercentageIsShownExactly | src/modules/reporting/admin-report-policy.ts:185-200 | which of the four states the percentage has, and that a shown one is the nearest hundredth |
| AdminReportBuild.PercentageIsNearest | src/modules/reporting/admin-report-policy.ts:185-199 | within half a hundredth of the exact percentage, and from 0.00 to 100.00 |
| AdminReportBuild.ReportsPassTheView | src/modules/admin/view.ts:209-263 | every total and every cell of every listed row prints as 1 to 19 digits and the percentage as the view demands, so its checks never throw |
| DeliveredEndToEnd.ReportCountsAcceptedClicks | src/modules/reporting/admin-report-policy.ts:60-140 | over any interleaving of redirect requests, observed, published unchanged, evaluated and reported: the delivered total is shown, never exceeds the number of accepted requests of the range (no duplicate, delivered, recorded), and equals it when every bucket is settled |
| TrafficShield.SlotIsModular | src/modules/dashboard/shield-service.ts:135-140 | two days share a slot exactly when they are whole weeks apart |
| TrafficShield.LinkMetrics.RecordEvent | src/testing/in-memory-store.ts:297-335 | updates the dated counter and one cell of the ring in place |
| TrafficShield.RingIsHistogram | src/testing/in-memory-store.ts:310-321 | for events in any order, read on a day that none lies beyond, the ring gives the exact count of each of the last seven days |
| TrafficShield.TodayIsExact | src/testing/in-memory-store.ts:299-306 | likewise the dated counter gives the exact delivered count of that day |
| TrafficShield.TodayCountsLatestDay | src/testing/in-memory-store.ts:299-306 | the dated counter is the delivered count of the latest day seen |
| TrafficShield.LifetimeIsExact | src/testing/in-memory-store.ts:307-309 | the lifetime total counts every event that is neither delivered nor diverted |
| TrafficShield.CountWeek | src/testing/in-memory-store.ts:297-335 | the counters object, fed any stream of events and read back, gives the exact filtered count of each of the seven days |
| TrafficShield.DayIsCoveredExactly | src/modules/dashboard/shield-service.ts:75-112 | tracking began by a day's start exactly when it began before every moment of that India day |
| TrafficShield.StoresAgree | src/infrastructure/mysql-store.ts:1097-1155 | the MariaDB row, unchanged by an event that its WHERE clause rejects, goes as the in-memory one if and only if the event is not rejected |
| TrafficShield.RejectedExactly | src/infrastructure/mysql-store.ts:1112-1125 | rejected are exactly the filtered events after a filtered event of a later day, whole weeks apart |
| TrafficShield.StoresDifferByRejected | src/infrastructure/mysql-store.ts:1097-1155 | over every stream of events the stores differ in the lifetime total alone, by the number of rejected events |
| TrafficShield.LateEventIsRejected | src/infrastructure/mysql-store.ts:1124-1125 | a filtered event exactly a week older than the one before it is such an event |
| TrafficShield.DailyTotalIsExact | src/testing/in-memory-store.ts:380-389 | summed over an author's links, each requested date is exact |
| TrafficShield.LoadTrafficShieldReport | src/modules/dashboard/shield-service.ts:75-112 | the history is exact if and only if tracking covers the oldest of the seven days, and its total is what the days show |
| TrafficShield.DayShowsExactly | src/modules/dashboard/shield-service.ts:75-112 | by moments: a day is exact when tracking began before all of it, and shown at all when it is today or tracking began before its end |
| TrafficShield.ExactHistoryCountsEvents | src/modules/dashboard/shield-service.ts:75-112 | an exact history total is the number of filtered events on the seven days |
| LikeSearch.EscapeIsPerCharacter | src/modules/dashboard/history-policy.ts:38-40 | the three replacements in a row escape each special character once |
| LikeSearch.SearchIsSubstring | src/infrastructure/mysql-store.ts:1416-1427 | under LIKE with escape `!` the search pattern matches a string exactly when it contains the query |
| RedirectAccounting.CountsAreExact | src/modules/redirect/service.ts:109-177 | at every moment of any interleaving: an account holds exactly the requests of its outcome that were no duplicates and whose record call had its effect; a bucket has observed exactly the delivered, recorded, proved and observed ones among them; every gap is marked by exactly the requests to which its reason applies |
| RedirectAccounting.StepCounts | src/modules/redirect/service.ts:109-177 | one call of one request adds to the three counts exactly what the request has newly come to |
| RedirectAccounting.DuplicateLeavesNoTrace | src/modules/redirect/service.ts:117 | a duplicate claim leaves accounted, observed and gaps as they were, and so does everything the request does later |
| RedirectAccounting.WinnerIsObserved | src/modules/redirect/service.ts:117-169 | a delivered click that wins its claim and whose calls all work is accounted once, observed once, and marks no gap |
| RedirectAccounting.ObservedNeverExceedsAccounted | src/modules/redirect/service.ts:130-169 | at every moment of every interleaving no bucket has more observed than accepted delivered clicks |
| RedirectAccounting.SettledBucketsAreEqual | src/modules/redirect/service.ts:147-175 | a bucket for which markGap was never called, and whose requests all ended, has observed exactly what was accepted |

## Left out

- HTTP, HTML, browser code, Fastify, SQL text, Redis and BullMQ clients, Sharp, real files and image content: transactions and scripts are single steps, files are present or absent.
- The legacy upload path, registration without a capacity, and seeding: they bypass the ledger.
- Outside writers on ledger-owned paths, and any disturbance of public files by anyone but the service.
- The batches of reconcileOnStartup with their counters and order: each listed row is one recovery of its own, which may start whenever the row needs recovery, so every batching is covered.
- A recovery whose own drive throws a reference error: its review is an event that may happen to any row at any time.
- The human-readable reasons of the planner and of thrown errors: errors keep the codes on which the service branches.
- ImageStores.ImageStore.CompleteImageJobCompensation: the in-memory driver awaits between reading and writing; the model makes it one step, as the MariaDB transaction is.
- ImageStores.ImageStore.PublishImageJobReady: refuses in the in-memory order; MariaDB checks the command before the capacity, so an input with two faults may carry another code there.
- ImageStores.ImageStore.ReserveImageJob: fresh output names are a hypothesis of the runs, where MariaDB has a unique key (database/001_image_job_ledger.sql:80-83).
- ImageStores.ImageStore.AddLink: domain rows are not modelled; whether the domain is creatable comes with the input.
- ImageProtocolRuns.RunsMoveForward: rows move on from any moment of a run; that stalled calls are eventually resumed is not promised by the service and not stated.
- WorkerLeaseRuns.ExclusionIsExact: an event loop that runs its timers late is outside the machine.
- Graceful stop of the heartbeat is modelled as stopping and a later compare-and-delete; waiting for the active command is not.
- AuthEpochRuns.AcceptedSessionsAreCurrent: the administrator role check of resetAllSessions, login throttling and password checking are not modelled; any accepted session may reset.
- DeliveredObserver.NormalizeCountry: characters whose upper case is not made of A to Z stand for themselves.
- DeliveredEndToEnd.ReportCountsAcceptedClicks: the aggregation of history rows into one row per country is SQL and enters as reportable rows.
- DeliveredObserver.DeliveredBucket.Observe: undo commands are taken to succeed, and the expiry to lie in the future; a failed EVAL whose effect is unknown appears in RedirectAccounting instead.
- AdminReportBuild.BuildAdminCountryOutcomeReport: the messages of its errors are not told apart.
- ImageProtocolStarvation.ExhaustedNeverChanges: an I/O error is taken not to carry the code of a reference error.
- ImageProtocolScenarios.DriverReopensReview: this run and the other three use the default lease of 120 seconds; the theorems about compensation and recovery hold for every lease.
- TrafficShield.StoresAgree: recent-activity lists differ between the stores and are not modelled; dates are compared as day numbers, not as texts.
- LikeSearch.SearchIsSubstring: collation and case folding are not modelled.
- RedirectAccounting.SettledBucketsAreEqual: accounting that succeeds has updated its row, as MariaDB insists; the in-memory driver also returns normally for a link that is gone.
- Diversion policy, IP range search, configuration and activation documents: routine or single-branch.
