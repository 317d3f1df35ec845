# Verified models of MaxPosty's protocols and planners

Dafny models of the parts of the MaxPosty backend whose guarantees hold over whole runs, not
single calls, with machine-checked proofs. `dafny verify dfyconfig.toml` checks everything.

| module | what it models |
|---|---|
| `Ordered` | ascending order of finite sets, and the sort the planners call |
| `RotationPlan`, `RotationRuns` | which base backups and WAL segments a rotation deletes, and any sequence of backups and (possibly interrupted) rotations |
| `LogicalRotation`, `LogicalDeletion` | which logical dump generations go, and the two-pass deletion in a directory that others change |
| `TokenBundle`, `TokenRefresh` | OAuth bundles of a Yandex Direct connection, and any number of workers refreshing them under a lease |
| `LaunchClaim` | the write-ahead launch of a spend-capable campaign, with takeovers and crashes |
| `Publication` | publishing a post: workers, cancellation, edits, reviews, stale recovery |
| `RefreshGate` | the discoverable-channel refresh gate with its swept map |
| `UploadGate` | the media upload gate, every interleaving of its atomic steps |
| `WindowLimiter` | the keyed window limiter with its bounded, pruned map |
| `LogSplitter` | the capped incremental line splitter |
| `BillingRetry`, `BillingAmount` | retrying one billing attempt, and the decimal money codec at the int64 limit |

Code that works by changing state is a class whose methods are proved against functions on its
state; protocols are those functions as atomic steps, in any order and number, with events for
crashes, lost answers and what other people do. A step that is out of turn changes nothing, so
every event sequence is a run. Database operations are taken as the atomic conditional updates
their SQL spells out.

## What turned out false

Where the code does not keep a promise it stays as it is in the model and a failing run is given,
with the exact condition under which the promise holds over all runs.

* **Logical deletion** (`LogicalDeletion.UntouchedExactlyForShortPlans`). The comment at
  `deploy/backup/rotate-production-backups.py:241` says the entire plan is checked before any
  deletion. A file that changes after its own first check is noticed only at its second one, when
  earlier files of the plan are gone: the promise holds exactly for plans of at most two files.
* **Launch** (`LaunchClaim.ReleasesNothingOpenExactly`, `LaunchClaim.NeverBlindExactly`).
  `deploy/README.md:706-708` says a launch stays blocked when an authorization error follows an
  ambiguous attempt. The code releases the claim after the second attempt too, with the first
  still open, and after a relaunch of a failed campaign, with the failed launch's attempts still
  open. The promise holds exactly when an abort is confined to the first attempt of a launch that
  took up no failed one. Another launch is otherwise held back only by the blocked connection,
  whose status write may fail without stopping the release.

## What holds under a condition

* **Token refresh** (`TokenRefresh.OnlyWithdrawalBlocksExactly`). `deploy/README.md:693-695` says
  lease and compare-and-swap keep a rotated token from being overwritten; that holds in every run
  (`TokenRefresh.EveryConnectionKeeps`). Beyond it, a refused refresh blocks no connection whose
  grant stands exactly when no worker crashes with a new token, no answer to a rotation is lost or
  unusable, and no worker outlives its two-minute lease. Nor does a claim no longer held write
  anything, exactly when no two claims share a stamp (`TokenRefresh.StaleClaimsNeverWriteExactly`).
* **Publication** (`Publication.OneHandoverExactly`, `Publication.ApprovedContentExactly`,
  `Publication.SentWasReviewedExactly`, `Publication.PublishedWasConfirmedExactly`). The restore of an
  interrupted schedule does not check whose claim it undoes, and recording an outcome not whose claim
  it ends. All four guarantees hold exactly when manual publications end before stale recovery can
  free the post and, besides, either the restore checks its claim or scheduled publications are never
  cancelled. The code meets this through its callers: both allow `PublishPost` three minutes
  (`internal/api/posts.go:430-432`, `internal/api/workspace_content.go:332-334`), and the scheduler
  detaches its publications (`internal/app/app.go:2386-2387`). A new caller could lose it.
* **Limiter** (`WindowLimiter.AgreesExactlyUpToMaxKeys`). Under every global limit it decides like
  an unbounded one exactly while no more than maxKeys keys are live; with the limits deployed
  (`internal/api/server.go:97-98`) there are never more (`WindowLimiter.RoomyMapAlwaysAgrees`).
* **WAL** (`RotationRuns.WalStaysIntactExactly`). No rotation removes a segment that a kept base
  needs. The archive stays intact through a run exactly when no base is added whose WAL had been
  removed before; START WAL that never goes backwards on a timeline is one case of that
  (`RotationRuns.NeededWalIsNeverRemoved`).
* **Billing** (`BillingRetry.VisitsAreBounded`). An attempt takes at most 4748 visits under a clock
  that does not go back, and prompt visits reach that number when the attempt's digest adds no
  jitter (`BillingRetry.MostVisitsHappen`). Under any clock it takes at most 5398.

## Model

| member | source | states |
|---|---|---|
| RotationPlan.LatestServes | deploy/backup/rotate-production-backups.py:270-271 | when some base started by t, the first latest start among the names in order is the one base that serves recovery to t |
| RotationPlan.AnchorExact | deploy/backup/rotate-production-backups.py:270-271 | the chronological anchor is the base serving the cutoff, and otherwise lies in the window |
| RotationPlan.KeepExact | deploy/backup/rotate-production-backups.py:265-278 | a base is kept if and only if it is in the window, has at most one newer name above it, serves the cutoff, or is protected |
| RotationPlan.WalPlanExact | deploy/backup/rotate-production-backups.py:283-308 | a segment is planned if and only if it is archived, on the oldest kept base's timeline, and before START WAL of every kept base of that timeline |
| RotationPlan.PlanWal | deploy/backup/rotate-production-backups.py:283-296 | the loop collects exactly the listed segments before the anchor on its timeline, in listing order |
| RotationPlan.PlannedWalIsBehindAll | deploy/backup/rotate-production-backups.py:283-308 | started from the label of wal_anchor, that loop's result is what no kept base of the timeline needs |
| RotationRuns.PartialRemovalKeepsServer | deploy/backup/rotate-production-backups.py:563-576 | deleting any part of a plan leaves the base that serves every instant from the cutoff on |
| RotationRuns.RotationPreservesRecovery | deploy/backup/rotate-production-backups.py:261-280 | after any run of backups and rotations, interrupted or not, an instant at or after every cutoff used has the same serving base as in an archive never rotated, whatever the order of START TIME |
| RotationRuns.RecoveryWindowIsExact | deploy/backup/rotate-production-backups.py:261-280 | all runs with cutoffs up to c keep the serving base of t if and only if c <= t |
| RotationRuns.EssentialsSurvive | deploy/backup/rotate-production-backups.py:272-276 | no run loses a base of the window or one of the two newest names of the full history |
| RotationRuns.RotationIsHistoryIndependent | deploy/backup/rotate-production-backups.py:261-280 | a completed unprotected rotation keeps exactly what one rotation of the complete history would |
| RotationRuns.ReplanningRemovesNothing | deploy/backup/rotate-production-backups.py:261-280 | planning again after a completed rotation removes nothing |
| RotationRuns.KeptIsASuffix | deploy/backup/rotate-production-backups.py:272-276 | with names in START TIME order and the two newest bases in the window, exactly the history from the base serving the cutoff on is kept |
| RotationRuns.SuffixReachesBackLessThanAGap | deploy/backup/rotate-production-backups.py:272-276 | with gaps of at most g between backups no kept base is g or more before the cutoff |
| RotationRuns.WalStaysIntactExactly | deploy/backup/rotate-production-backups.py:299-308 | through a whole run, interrupted rotations included, no removed segment is at or beyond a kept base's START WAL on its timeline, if and only if every base added found the segments it needs not removed before |
| RotationRuns.WalGoesBehindTheOldest | deploy/backup/rotate-production-backups.py:279-308 | after any rotation of any run that removed WAL, the WAL is of the timeline of a base left that no other base left precedes in START TIME, and before START WAL of every base left there |
| RotationRuns.SegmentsAreAccounted | deploy/backup/rotate-production-backups.py:283-296 | in every run a segment is on disk if and only if it was archived and no rotation removed it since |
| RotationRuns.NeededWalIsNeverRemoved | deploy/backup/rotate-production-backups.py:299-308 | while START WAL moves forward on each timeline, no run ever removed a segment at or beyond a kept base's START WAL on its timeline |
| RotationRuns.BackwardWalLosesSegments | deploy/backup/rotate-production-backups.py:306-307 | a run whose second base starts before a removed segment: possible, and its archive not intact |
| LogicalRotation.LogicalPlanExact | deploy/backup/rotate-production-backups.py:217-232 | a file is planned if and only if its generation is complete, without an ignored sidecar, unprotected, and two newer complete generations of its class exist |
| LogicalRotation.AllOrNothing | deploy/backup/rotate-production-backups.py:222-232 | generations go as a whole; partial and protected ones never do |
| LogicalRotation.TwoNewestSurvive | deploy/backup/rotate-production-backups.py:228-231 | the two newest scheduled generations are complete after the plan is carried out |
| LogicalRotation.TwoNewestStandaloneSurvive | deploy/backup/rotate-production-backups.py:230-231 | so are the two newest standalone ones |
| LogicalRotation.ReplanningIsEmpty | deploy/backup/rotate-production-backups.py:217-232 | planning again after carrying out the plan finds nothing |
| LogicalRotation.PlanLogical | deploy/backup/rotate-production-backups.py:217-232 | the loops over records, ignored names and obsolete stamps return exactly the planned files, generation by generation in stamp order |
| LogicalDeletion.BackupDirectory.CheckPlan | deploy/backup/rotate-production-backups.py:241-246 | the first pass deletes nothing and succeeds if and only if each file is the planned one when its turn comes; otherwise it tells a missing file from a replaced one |
| LogicalDeletion.BackupDirectory.DeletePlan | deploy/backup/rotate-production-backups.py:247-256 | the second pass unlinks the planned names in order up to the first surprise, and on success returns the count and byte sum |
| LogicalDeletion.BackupDirectory.RemoveLogical | deploy/backup/rotate-production-backups.py:235-258 | what is unlinked is a prefix of the plan, nothing if a planned file is missing or has another type, device, inode or size at its first check, and at most the files before it if it has so at its second; success means all of it with its count and byte sum, a failure names what its last check met, and every other name is as outside changes left it |
| LogicalDeletion.PlansAreDistinct | deploy/backup/rotate-production-backups.py:218-232 | a plan made from one listing of distinct names names no file twice, which is what the deletion relies on |
| LogicalDeletion.SecondPassMeaning | deploy/backup/rotate-production-backups.py:248-255 | the second pass unlinks exactly the leading files that are still intact at their second check |
| LogicalDeletion.ReplacedFilesStay | deploy/backup/rotate-production-backups.py:242-252 | a file that is missing or has another type, device, inode or size at its first check keeps the whole plan, and at its second check itself and all files after it |
| LogicalDeletion.WholePlanGoesExactly | deploy/backup/rotate-production-backups.py:242-256 | the whole plan is unlinked if and only if no planned file is missing or replaced in that sense at either of its checks |
| LogicalDeletion.ReclaimedIsFreed | deploy/backup/rotate-production-backups.py:247-256 | in a directory nobody else changes, the bytes of its files before are those after and the planned sizes of the files unlinked |
| LogicalDeletion.LongPlansLoseTheirFirstFile | deploy/backup/rotate-production-backups.py:241-253 | for every plan of three or more files, a change before the end of the first pass after which a file is still unlinked |
| LogicalDeletion.UntouchedExactlyForShortPlans | deploy/backup/rotate-production-backups.py:241-253 | a plan that changed before its first pass ended is left untouched if and only if it has at most two files |
| TokenBundle.LifetimeIsExact | internal/app/direct.go:1144-1147 | with 64-bit wrap-around, the lifetime is the answered seconds or a century, positive and in range |
| TokenBundle.NewBundleIsTimely | internal/app/direct.go:1135-1161 | a bundle is made if and only if the grant is complete; now <= RefreshAfter <= ExpiresAt, now < ExpiresAt, and it is due exactly from five minutes before expiry or 90 days on |
| TokenBundle.NeverExpiresBeforeDue | internal/app/direct.go:993-1002 | such a bundle is usable whenever it is not yet due, so the branch for one that expired first is dead |
| TokenRefresh.ConnectionRow.ClaimRefresh | internal/store/direct.go:690-720 | granted exactly for the expected ciphertext of an active connection with no lease or one two minutes old; otherwise busy, conflict or not found as the row says, and unchanged |
| TokenRefresh.ConnectionRow.CompleteRefresh | internal/store/direct.go:722-741 | replaces the ciphertext and ends the lease exactly for the holder's ciphertext and stamp |
| TokenRefresh.ConnectionRow.ReleaseRefresh | internal/store/direct.go:743-759 | ends the lease exactly for the holder |
| TokenRefresh.ConnectionRow.MarkRefreshDenied | internal/store/direct.go:761-799 | blocks the connection exactly for the holder, and reports whether it did |
| TokenRefresh.ConnectionRow.DirectAccessToken | internal/app/direct.go:969-1133 | undisturbed: a legacy token or one not yet due is handed out as it is; a due one is replaced if the claim is free and a complete answer comes and seals, handed out while 30 seconds remain if the claim is taken or the refresh fails, and refused otherwise; only a refused grant blocks, the ciphertext changes only to a bundle obtained from the one before, and no lease stays behind |
| TokenRefresh.EveryRunKeeps | internal/app/direct.go:969-1133 | under every interleaving, expiry, crash and provider answer, several replacements for one ciphertext included: each stored bundle was obtained from the one it directly replaced, every returned token is legacy or unexpired (30 s to spare on the fallback paths), and no bundle expires before it is due |
| TokenRefresh.EveryConnectionKeeps | internal/app/direct.go:500-506 | the same from the first bundle of every connection on |
| TokenRefresh.BeginsWithTokenExactly | internal/app/direct.go:976-1003 | after any run a new call returns the stored token at once if and only if the connection is not revoked and the bundle is legacy or not yet due |
| TokenRefresh.ClaimsExactly | internal/store/direct.go:690-720 | a call that is due gets the claim if and only if the connection is active with the ciphertext it read and has no lease younger than two minutes |
| TokenRefresh.EndsInTokenExactly | internal/app/direct.go:1004-1123 | after any run a call under way ends in a token exactly with the store of its own claim, with a reread that finds another unexpired bundle, or with its old one outliving 30 seconds after a taken claim or a failed refresh; and in which |
| TokenRefresh.UnexpiredTokenIsServed | internal/app/direct.go:1004-1123 | under every interleaving a call that begins with a token good for 30 more seconds fails only by a crash of its own, a refused grant, an answer that makes no bundle, a revoked connection, or a lost race after which no usable bundle is found |
| TokenRefresh.BlockedIsFinal | internal/store/direct.go:729-733 | after a connection is blocked or revoked no refresh stores anything and nothing makes it active again |
| TokenRefresh.DisconnectedServesNobody | internal/app/direct.go:973-980 | after a disconnect no new call gets a token in any run, while a rejected token only blocks the connection for refreshes |
| TokenRefresh.HolderExactly | internal/store/direct.go:690-799 | in every run the connection has a lease exactly while a worker is recorded as its holder |
| TokenRefresh.StaleClaimsAreInert | internal/app/direct.go:1045-1076 | while every claim has a stamp of its own, no step of a worker whose claim is no longer held changes the connection: a stale invalid_grant blocks nothing |
| TokenRefresh.StaleClaimsNeverWriteExactly | internal/app/direct.go:1045-1076 | over all runs and bundles no step of a worker whose claim is no longer held changes the connection, if and only if no two claims may share a stamp |
| TokenRefresh.SharedStampMisfires | internal/app/direct.go:1045-1060 | with a stamp used twice it can: a run in which a stale invalid_grant blocks the connection |
| TokenRefresh.NoFalseAlarms | internal/app/direct.go:1045-1060 | in runs without the four disturbances the refresh token the provider accepts is stored or in the holder's hands, and only a withdrawn grant blocks the connection |
| TokenRefresh.OnlyWithdrawalBlocksExactly | internal/app/direct.go:1043-1076 | over all runs with a lawful provider, only a withdrawn grant lets a refused refresh block the connection if and only if no new token is lost to a crash, a lost answer or an unusable one, and no holder outlives its lease |
| TokenRefresh.DisturbanceRaisesFalseAlarm | internal/app/direct.go:1043-1100 | each of the four alone leads to a false alarm, from any bundle that is due |
| TokenRefresh.SlowHolderRaisesFalseAlarm | internal/store/direct.go:696-702 | a holder that stalls before its store write past its lease: the connection is blocked while the grant stands and the holder carries the live token |
| LaunchClaim.CampaignRow.MarkAttempt | internal/store/direct.go:2742-2765 | counts an attempt exactly for the current stamp of a launch in progress with fewer than two |
| LaunchClaim.CampaignRow.MarkReconciling | internal/store/direct.go:2767-2792 | parks exactly the current stamp's launch in progress |
| LaunchClaim.CampaignRow.AbortForAuthorization | internal/store/direct.go:2794-2831 | returns exactly the current stamp's launch in progress to idle, forgetting stamp and attempts |
| LaunchClaim.CampaignRow.Complete | internal/store/direct.go:2876-2912 | confirms exactly the current stamp's launch in progress |
| LaunchClaim.CampaignRow.AttemptClaimedLaunch | internal/app/direct.go:694-791 | Resume is sent only when the campaign reads stopped and the attempt could be marked; only a confirmed launch or a rejected credential ends the claim; a rejection, and nothing else, blocks the connection, after which no launch can be claimed; unclear readings and lost answers leave it reconciling |
| LaunchClaim.NextStampIsEarliest | internal/store/direct.go:2375-2389 | a new stamp is the clock's reading or, when that is not past the last stamp, the earliest one that is |
| LaunchClaim.UninterruptedAttempt | internal/app/direct.go:694-791 | the steps of a worker left alone leave the row as that method does, for every reading and answer |
| LaunchClaim.BlockedNeverLaunches | internal/store/direct.go:2626-2630 | with its connection blocked a campaign is never claimed for a launch again in any run, manual launches included |
| LaunchClaim.BlockedSendsNothingNew | internal/store/direct.go:2440-2463 | and no Resume is sent in any run but by workers that were already under way when it was blocked |
| LaunchClaim.RejectedResumeBlocks | internal/app/direct.go:759-771 | so it is after every rejected Resume whose connection was marked, whatever others did in between |
| LaunchClaim.SwitchedOnExactly | internal/app/direct.go:748-790 | the provider's campaign is switched on by a person or by a Resume that was sent and not rejected, as it is answered or later, and by nothing else |
| LaunchClaim.AtMostTwoResumes | internal/app/direct.go:748-756 | in every run each Resume sent was durably marked before, and one launch claim has at most two |
| LaunchClaim.AbortAsWritten | internal/store/direct.go:2808-2816 | in every run the abort as written is held back by nothing but the claim's stamp |
| LaunchClaim.HeldUntilResolved | internal/app/direct.go:757-790 | in every reachable state a claim in progress ends only by a launch that took place, a provider's rejection of one of its own attempts, or two attempts followed by giving up |
| LaunchClaim.FailedWaitsForItsOwner | internal/store/direct.go:2626-2630 | in any run without a manual launch a failed launch stays failed, or turns out to have taken place |
| LaunchClaim.TakeoverFences | internal/store/direct.go:2375-2389 | after a recovery takeover no earlier worker ever changes the claim again, at any later point of any continuation |
| LaunchClaim.ReleasesNothingOpenExactly | internal/app/direct.go:759-775 | a claim is released with no possibly effective attempt of any launch left if and only if aborts are confined to the first attempt of a launch that took up no failed one, or ruled out; the code does not confine them |
| LaunchClaim.NeverBlindExactly | internal/app/direct.go:759-775 | no launch starts from idle beside a possibly effective attempt of any earlier launch if and only if aborts are confined that way or to a connection already blocked; the code does neither |
| LaunchClaim.GuardedCodeNeverBlind | internal/app/direct.go:759-775 | the code as written never starts a launch blindly in a run whose aborts meet one of the two conditions |
| LaunchClaim.RelaunchLeavesEarlierOpen | internal/store/direct.go:2626-2630 | the run: two lost answers, the launch given up, taken up by its owner, its first attempt rejected, and the claim released with both earlier attempts open |
| LaunchClaim.SecondAttemptLeavesFirstOpen | internal/app/direct.go:759-775 | the run: a lost first answer, a takeover, a rejected second attempt, and the claim released with the first still open |
| Publication.PostRow.ClaimScheduled | internal/store/store.go:1333-1352 | claims exactly a scheduled post due by the cycle's clock, clearing its slot |
| Publication.PostRow.PublishClaimedPost | internal/app/app.go:1617-1670 | undisturbed, a message is sent exactly when approval is found after the claim and nothing stops it before; the post ends published or failed accordingly |
| Publication.PostRow.PublishPost | internal/app/app.go:1594-1610 | undisturbed, an unapproved or unclaimable post is left as it is; otherwise it is sent unless something stops it before, and ends published or failed |
| Publication.PostRow.PublishScheduledPost | internal/app/app.go:2414-2457 | undisturbed, a due post is back in its slot exactly when it was cancelled before anything was sent; one that was sent is published or failed |
| Publication.SafeguardsSuffice | internal/app/app.go:1594-1670 | under every policy that bounds manual publications and either fences restores or rules out cancellation, the invariant behind both guarantees holds over every run |
| Publication.CodeKeepsGuarantees | internal/app/app.go:2386-2387 | the code, called as it is, keeps both guarantees in every run |
| Publication.UndisturbedRunsKeepGuarantees | internal/app/app.go:1594-1670 | however called, it keeps them in every run without a restore over a later claim and without a step past a worker's time |
| Publication.OneHandoverExactly | internal/app/app.go:2436-2455 | at most one request per decision of a person and nothing sent back on the calendar, in all runs, if and only if manual publications are bounded and restores fenced or never needed; the code meets this |
| Publication.ApprovedContentExactly | internal/app/app.go:1618-1629 | what is sent is the claimed payload, found stored and, where required, approved under the same claim after it, and approved before it too, in all runs, under exactly the same condition; the code meets this |
| Publication.SentWasReviewedExactly | internal/store/migrations/016_workspaces.sql:409-432 | where approval is required, every payload sent in any run is one a reviewer approved as it stood, under exactly the same condition; the code meets this |
| Publication.PublishedWasConfirmedExactly | internal/app/app.go:1645-1668 | in all runs a post is published only if MAX confirmed a request sent under the claim it was published from, under exactly the same condition; the code meets this |
| Publication.AnswerDecides | internal/app/app.go:1645-1668 | an answer recorded in time, whatever others did since, leaves the post published if it was a confirmation and else failed, off the calendar, with the payload and claim it was sent under |
| Publication.NeverBeforeItsSlot | internal/store/store.go:1333-1352 | in every run a scheduled publication claims the post only once its slot has come |
| Publication.SchedulesExactly | internal/app/app.go:2472-2488 | a slot can be set if and only if it lies in the future, the post is neither being published nor published, and it is approved where that is required |
| Publication.OnCalendarExactly | internal/store/store.go:1375-1476 | in every run a post has a slot exactly while it is scheduled |
| Publication.RecoversExactly | internal/store/store.go:1382-1402 | stale recovery takes a post off the calendar as failed if and only if it is being published and was last written more than ten minutes ago |
| Publication.LateWorkersStop | internal/app/app.go:2386-2387 | a worker with a deadline does nothing to its claim later than its three minutes and the ten seconds of its last writes |
| Publication.WritesAreStamped | internal/store/store.go:1382-1402 | whatever changes the post stamps it with the time recovery counts from |
| Publication.PublishedIsFinal | internal/store/store.go:1404-1455 | in every run a published post stays published with its payload and claim |
| Publication.UninterruptedPublishes | internal/app/app.go:1617-1670 | from the claim on, the steps of a worker left alone do to the post what publishClaimedPost does, with one request exactly when it sends one |
| Publication.ManualRunIsPublishPost | internal/app/app.go:1594-1610 | from the click on they do what PublishPost does |
| Publication.TimedRunIsPublishScheduledPost | internal/app/app.go:2414-2457 | and from the scheduler's pick to the restore what publishScheduledPost does |
| Publication.UnfencedRestoreFails | internal/store/store.go:1455-1476 | what the store function allows a caller with a cancellable context: a run in which the restore takes the post from a later claim and an old payload is sent for a post on the calendar |
| Publication.UnboundedManualFails | internal/store/store.go:1382-1402 | what stale recovery allows a caller without a deadline: a run in which an overtaken manual worker sends after its successor |
| RefreshGate.DiscoverableRefreshGate.Begin | internal/app/app.go:575-601 | sweeps when due, then answers and enters the user as the functions on the map say |
| RefreshGate.DiscoverableRefreshGate.Sweep | internal/app/app.go:581-589 | the loop deletes exactly the entries that refuse nobody |
| RefreshGate.SweepIsInvisible | internal/app/app.go:581-589 | under a clock that does not go back every answer, retry time included, is that of a map never swept |
| RefreshGate.GateAnswersLikeUnswept | internal/app/app.go:575-601 | so from a new gate on, in every run under such a clock |
| RefreshGate.BackwardClockIsVisible | internal/app/app.go:581-589 | with a clock that goes back it is not |
| RefreshGate.RetryAfterIsExact | internal/app/app.go:590-596 | a refusal's retry time is positive and, for a user only cooling down, the exact time until the next grant |
| RefreshGate.SweepLeavesOnlyActive | internal/app/app.go:581-589 | right after a sweep only in-flight or cooling entries remain, and all of them |
| RefreshGate.SweepsExactly | internal/app/app.go:581-589 | a request sweeps exactly when there was no sweep in the 15 seconds up to it |
| RefreshGate.RefreshesNeverOverlap | internal/app/app.go:590-600 | granted refreshes of one user never overlap, whatever the clock does |
| RefreshGate.RefreshesAreSpaced | internal/app/app.go:590-600 | refreshes of one user start at least the cooldown apart |
| RefreshGate.GateSpacesRefreshes | internal/app/app.go:575-601 | from a new gate on, a user has at most one refresh running and starts are a cooldown apart |
| RefreshGate.GrantedExactly | internal/app/app.go:590-600 | after any run under such a clock a user is granted a refresh if and only if none of his is running and the last one started at least 15 seconds ago |
| UploadGate.Clamped | internal/api/media_upload_gate.go:20-34 | positive limits with the user's at most the global one are kept; one below one becomes one, and a user limit above the global one becomes that |
| UploadGate.MediaUploadGate.TryAcquire | internal/api/media_upload_gate.go:36-51 | undisturbed, granted exactly with a free slot and room for the user; a refusal leaves the gate as it was |
| UploadGate.ReleaseUndoesGrant | internal/api/media_upload_gate.go:36-65 | a release right after its grant restores the gate |
| UploadGate.GateIsAccounted | internal/api/media_upload_gate.go:36-65 | in every interleaving the slots taken are the calls holding one and each user's count is the live grants, between 1 and the user limit |
| UploadGate.UserMapIsBounded | internal/api/media_upload_gate.go:36-65 | the user map never has more keys than slots are taken |
| UploadGate.GivingBackNeverBlocks | internal/api/media_upload_gate.go:46-62 | whenever a call receives from the channel a slot is there |
| UploadGate.ReleaseHappensOnce | internal/api/media_upload_gate.go:52-54 | once a grant is released, every further release of it, at any later point of any continuation, changes nothing |
| UploadGate.QuiescentGateIsEmpty | internal/api/media_upload_gate.go:36-65 | with no call in progress channel and map are empty |
| UploadGate.GrantedExactlyWithRoom | internal/api/media_upload_gate.go:36-51 | a call that waits for nobody is granted if and only if the calls in progress leave room |
| WindowLimiter.KeyedWindowLimiter.AllowKey | internal/api/rate_limit.go:36-70 | decision and new state are those of the limiter as a function |
| WindowLimiter.KeyedWindowLimiter.PruneExpired | internal/api/rate_limit.go:87-96 | on a full map the loop deletes exactly the expired windows |
| WindowLimiter.MapIsBounded | internal/api/rate_limit.go:56-60 | the map never exceeds maxKeys |
| WindowLimiter.RetryAfterIsClose | internal/api/rate_limit.go:79-85 | in any run a refusal's retry time is in whole seconds, halves rounded up, and within half a second of what the refusing window has left, or of one second when it has less |
| WindowLimiter.BoundedDecidesLikeUnbounded | internal/api/rate_limit.go:36-96 | while fewer than maxKeys keys are live whenever a key not in the map arrives, every decision is that of an unbounded, never pruned limiter |
| WindowLimiter.AgreesExactlyUpToMaxKeys | internal/api/rate_limit.go:45-62 | under every global limit and over all runs with at most n live keys the decisions agree with those of an unbounded, never pruned limiter, if and only if n <= maxKeys (or there is no per-key limit or window to differ by) |
| WindowLimiter.RoomyMapAlwaysAgrees | internal/api/server.go:97-98 | with a map larger than twice the global limit, as deployed, the decisions agree in every run |
| WindowLimiter.FullMapDecidesOtherwise | internal/api/rate_limit.go:57-60 | without that room a run decides otherwise |
| WindowLimiter.GlobalAdmissionsBounded | internal/api/rate_limit.go:40-43 | any half-open interval of one window length holds at most twice the global limit of admissions |
| WindowLimiter.GlobalCountIsAdmissions | internal/api/rate_limit.go:40-69 | after any run the global count is the number of requests admitted since its window began: no refusal uses up any of it |
| WindowLimiter.KeyAdmissionsBounded | internal/api/rate_limit.go:45-69 | and at most twice the per-key limit of tracked admissions of one key, across resets, pruning and re-insertion |
| LogSplitter.LinesRejoin | deploy/diagnose-production-errors.py:387-401 | the specified lines and tail rejoin to the stream and hold no newline |
| LogSplitter.ShortExactly | deploy/diagnose-production-errors.py:387-401 | of the lines counted exactly those of at most 64 KiB are handed on, whole and in order |
| LogSplitter.CountsExactly | deploy/diagnose-production-errors.py:381-408 | a stream counts the lines ended within its first two mebibytes, and the tail of a shorter stream when it has at most 64 KiB, up to 2000 |
| LogSplitter.BoundedDiagnostics.Feed | deploy/diagnose-production-errors.py:381-402 | after any chunk the state is what the concatenation fed so far demands, and the answer says whether no cap is reached |
| LogSplitter.BoundedDiagnostics.Finish | deploy/diagnose-production-errors.py:404-408 | hands on the tail exactly when it counts; lines handed on and counted are those specified |
| LogSplitter.ReadDiagnostics | deploy/diagnose-production-errors.py:632-647 | the feeding loop's result is the specification applied to the whole stream |
| LogSplitter.ChunksDoNotMatter | deploy/diagnose-production-errors.py:381-408 | two readings of the same bytes agree however they are cut |
| LogSplitter.CapsAreFinal | deploy/diagnose-production-errors.py:388-402 | reading on after a cap changes nothing |
| BillingRetry.AttemptRow.ProcessBillingAttempt | internal/app/billing.go:250-283 | one visit leaves the attempt as the step function says whose outcomes the next two rows fix |
| BillingRetry.SettledExactly | internal/app/billing.go:250-291 | after any run an attempt is settled if and only if some due visit, while the payment was pending or just accepted and within seven days of the first create, found it concluded |
| BillingRetry.ReviewedExactly | internal/app/billing.go:250-399 | and in manual review if and only if some due step came at or past the create deadline, was rejected or mismatched, would have been retried at or past the deadline, came when the seven days were over, or found an inconsistent payment |
| BillingRetry.AttemptRow.RecordCreateFailure | internal/app/billing.go:383-399 | a rejection or a retry past the deadline goes to review, any other is put off |
| BillingRetry.CreateDelays | internal/app/billing.go:401-414 | create delays double from 30 s to 960 s; the half-hour cap is never met |
| BillingRetry.StatusDelays | internal/app/billing.go:416-428 | failed status checks are 30 s to 36 min apart: a delay doubling up to 16 min and then half an hour, with 0 to 20 hundredths of it added |
| BillingRetry.DeferralsAreSpaced | internal/app/billing.go:394-398 | a deferral moves the next visit by the delay, at least 30 s, to before the deadline |
| BillingRetry.CreateChainEnds | internal/app/billing.go:383-414 | however visits and crashes fall, an attempt is put off at most ninety times |
| BillingRetry.NinetyDeferralsHappen | internal/app/billing.go:383-414 | that bound is met, and the next failure goes to review |
| BillingRetry.EveryAttemptComesToRest | internal/app/billing.go:250-291 | no attempt has more than 5398 recorded visits, whatever the outcomes, crashes and clock |
| BillingRetry.VisitsAreBounded | internal/app/billing.go:250-291 | under a clock that does not go back none has more than 4748 |
| BillingRetry.MostVisitsHappen | internal/app/billing.go:416-428 | for every attempt without jitter a run of prompt visits has exactly that many |
| BillingAmount.AmountRoundTrip | internal/app/billing.go:495-513 | parsing a printed amount gives it back, for every amount up to 2^63-1 |
| BillingAmount.AcceptedAmountsFit | internal/app/billing.go:499-513 | an accepted string has a value in that range, with no intermediate overflow |
| BillingAmount.AcceptedExactly | internal/app/billing.go:499-513 | a string is accepted, and for which amount, if and only if it is two int64 numerals around one dot, neither negative, the second of two characters, and the amount fits in int64 |
| BillingAmount.PrintsBackExactlyWhenPlain | internal/app/billing.go:495-513 | an accepted string prints back as itself if and only if it has no sign and no leading zero |

## Left out

* HTTP handlers, JSON shapes, metrics, logging and notifications: plumbing without protocol.
* `internal/api/ai_limits.go` and media range parsing: the slot pattern of the upload gate, and library parsing.
* Encryption: a sealed ciphertext is a fresh number that opens to what was sealed; refresh tokens are numbered by the ciphertext that holds them, and the provider is taken to rotate them on every use.
* Leading and trailing blanks: tokens and amounts are taken as already trimmed.
* Clocks: times are unbounded integers. Where a result needs the clock to move forward, or each claim to have a stamp of its own, its contract says so.
- RotationRuns.RotationPreservesRecovery: a base directory half removed by an interrupted deletion counts as removed or present, not as damaged, because what a recovery makes of it is not in the code.
* Rotation: lock handling, inventories, label parsing, verification commands and the clock-skew refusal. A base added while a rotation runs is placed before or after the rotation's inventory, and base names are their stamps as integers.
* Rotation of WAL on timelines other than the oldest base's is not planned by the code and needs no model; that a run never touches them is part of the plan's exact contract.
- LogicalDeletion.BackupDirectory.RemoveLogical: the missing directory (descriptor None), which returns two zeros at once, and operating-system errors other than a missing file.
- LogicalDeletion.UntouchedExactlyForShortPlans: a file once changed is taken not to become the planned one again, because otherwise no check before the deletion can help.
* Token refresh: the in-process single flight, which only makes callers share one worker's result, and the invalidation of consents when a connection is blocked.
* Launch: budgets, consents, graph verification and the provider-status bookkeeping. Recovery may take a claim over at any time, not only when its two-minute lease is over, which makes the results stronger; an owner's relaunch of a failed campaign is a decision of its own and not counted as a blind launch, but every launch from idle after it is.
* Publication: editing an already published post, archived workspaces, the retries of the channel inspection, and other posts. A decision of a person counts from the moment its claim or slot is stored.
- Publication.CodeKeepsGuarantees: a worker is taken to make no step on its claim later than 190 seconds after it, the three minutes of its context and the two five-second writes; a process that is suspended longer and then goes on is not modelled, nor a cancellation error that does not come from the caller's context.
- WindowLimiter.AgreesExactlyUpToMaxKeys: quantifies over the global limit. For one given limit between the two cases it says nothing: a low one may refuse before a difference shows, unless its window begins anew at the right time.
- BillingRetry.EveryAttemptComesToRest: 5398 is not shown to be met; the exact bound is the one for a clock that does not go back.
- BillingRetry.MostVisitsHappen: an attempt whose digest adds jitter has fewer visits still; how many is not computed.
* Limiter: a retry time is modelled, but nothing is claimed about waiting it out, since it is rounded to the nearest second.
* Log splitter: what is done with a line (`_line`), and timeouts. The `truncated` flag and the byte count at a cap are in the class but nothing is claimed of them across chunkings.
* Billing: webhook reconciliation, renewals and catalog checks; a visit's outcomes stand for them. Distinct error codes are not kept.
