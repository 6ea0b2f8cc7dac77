# Durable publishing, import boundary, billing outbox and media URLs

A Dafny model of the concurrent and stateful core of the repository, with proofs.

- **Durable publishing** (`packages/worker/publish-target.ts`). Any number of `publishTarget` calls work on the same
  targets. Each reads a row without a lock, checks it, takes a fifteen-minute lease under a row lock (`attempts + 1`
  is the fencing token), calls the provider, saves a confirmed outcome, and finalizes target, automations, index, jobs
  and post in one transaction. A call may crash between any two transactions.
  `PublishRecords`, `Rollup`, `FollowUps` and `Transactions` hold the tables and every transaction as a function;
  `Preflight` and `UninterruptedRun` describe one call from start to reply. `TransactionContracts`, `PreflightContract`
  and `CallOutcomes` say what transactions, preflight and whole calls come to, read off the tables alone. `Protocol` is
  the state machine over interleaved calls; `ProtocolInvariant`, `ProtocolRuns`, `ProtocolPosts`, `ProtocolAnswers`,
  `ProtocolTriggers`, `ProtocolStamps`, `YouTubeRaces`, `TimingBounds` and `AnswerRaces` prove what holds over whole
  runs, and `RunRefinement` proves that a single call is such a run. `PublishStore` is the code's own form: statements
  and loops over tables updated in place, each method proved equal to its transaction.
- **Import boundary** (`scripts/check-connections-boundary.ts`): `BoundaryWalk`, the recursive walk with its shared
  `visited` set and `violations` list, and `BoundaryNames`, what it takes names and specifiers to mean.
- **Billing outbox** (`apps/api/src/automation-providers.ts`): `BillingOutbox` for deliveries, replay and keyed
  messages, `DmMessage` for the Instagram payload.
- **Media URLs** (`packages/worker/resolve-media-urls.ts`): `MediaUrls`, tasks writing shared objects in any order.

`dafny verify dfyconfig.toml` checks the project.

## What the proofs found

- **YouTube needs timing.** Single flight, survival of a confirmed outcome, and agreement between
  `platform_post_id` and the saved outcome each hold over every run if and only if the platform is not YouTube
  (`YouTubeRaces`). A stale lease of a resumable upload is taken over while its old holder may still be in the
  provider, so two calls can be unresolved at once. A run that read its row long ago may even take over after another
  run saved its result. `TimingBounds` has the exact bounds: a saved outcome is kept, and the published id is the saved
  one, if and only if leases are asked for within fifteen minutes of the read. No provider call follows a save if and
  only if they are also used within fifteen minutes of the grant. No such bound gives single flight.
- **A confirmed answer can be lost.** While one run is inside the provider another may fail the row in preflight. The
  first run then finds no publishing row, throws, and the published post leaves no saved outcome and a failed target
  (`AnswerLost`, on every platform). Off YouTube a save fails on a failed row only (`SavedIffPublishing`), and the
  provider is still never called again (`AnswerEndsCalls`).
- **An empty media id passes preflight and then throws.** The checks use the truthiness of the missing id, so a
  reference to media `""` is not reported, and building the publish input throws "Validated media disappeared". That
  is the only way (`ThrowsExactlyOnEmptyId`). The throw leaves the target as it was, so a dead lease with such content
  and no saved outcome is never settled (`EmptyIdIsNeverSettled`).
- **Finalizing again moves reclaim jobs.** A second pass adds no job, but `enqueue` keeps one job per key and the
  later one replaces it, so every media reclaim job is put off by the time between the passes (`SecondPassIsSilentIff`).
  Payloads and keys do not change.
- **An outdated billing event speaks on replay.** Staleness is judged only when the event id is first claimed. A later
  delivery of the same outdated event finds the claim, is not stale, and sends all its messages.
- **A comment reply with links drops its quick replies.** The links go into the text, the quick replies nowhere.

## Assumptions

- Each transaction, and each lone UPDATE, is one atomic step. The sibling statuses at
  `packages/worker/publish-target.ts:160-162` are read without a lock, so statements about the post status are about
  serial transactions.
- One clock stands for the database's `now()` and the worker's `Date.now()`, and it never goes back.
- Every update of a target sets `updated_at`, through the trigger of
  `packages/db/migrations/0001_initial_schema.sql:8-13` and `:160-168`.
- A provider runner is an arbitrary choice of progress saves and outcome, but never writes `executionOutcome` into
  the state it persists. A failed save reaches it as an error. A runner may also reject.
- A run of the protocol starts from targets that are not published and have no saved outcome.
- The roll-up is `rollupPostStatus` without a review override (`packages/core/src/domain/post-behavior.ts:68-96`).
- The job store keeps one job per idempotency key and a second replaces the first
  (`packages/services/src/jobs.ts`, `apps/api/src/durable-job.ts`).
- An event is claimed once, with its staleness, as in `packages/services/src/billing-webhooks.ts:39-54`; `track` may
  drop a message on the owner's preferences as in `packages/services/src/messaging.ts:213-238`; a stored message key is unique.
- Provider event ids name events: two deliveries with the same id carry the same event.
- Presigning is an arbitrary function of the key, which may fail; the URL parser is an arbitrary partial function.

## Model

| member | source | states |
|---|---|---|
| YouTubeRaces.SingleFlightExactlyOffYouTube | packages/worker/publish-target.ts:345-381 | Over all interleavings and crashes at most one provider call per target is unresolved, if and only if the platform is not YouTube |
| YouTubeRaces.SurvivalExactlyOffYouTube | packages/worker/publish-target.ts:210-244 | A saved confirmed outcome is kept and ends all provider calls of its target, over every run, if and only if the platform is not YouTube |
| YouTubeRaces.PublishedIdExactlyOffYouTube | packages/worker/publish-target.ts:417-431 | A published target carries the platform id of its saved outcome in every reachable state, if and only if the platform is not YouTube |
| YouTubeRaces.TwoCallsInFlight | packages/worker/publish-target.ts:354-377 | However soon leases are asked for and used, a concrete run with two unresolved YouTube calls for one target |
| YouTubeRaces.ReachRecalled | packages/worker/publish-target.ts:364-377 | Whenever leases may be asked for more than fifteen minutes after the read, a concrete YouTube run that calls the provider again after the save |
| YouTubeRaces.OutcomeErased | packages/worker/publish-target.ts:401-411 | Under the same lateness, a concrete YouTube run in which a progress save erases the saved outcome |
| YouTubeRaces.PublishedWithoutOutcome | packages/worker/publish-target.ts:401-411 | Under the same lateness, a concrete YouTube run whose published target has lost its saved outcome |
| YouTubeRaces.LateCallAfterSave | packages/worker/publish-target.ts:382-415 | Whenever leases may be used more than fifteen minutes after the grant, a run that calls the provider after the save |
| TimingBounds.SurvivalExactlyWithinLease | packages/worker/publish-target.ts:210-244 | On all platforms, with at most `a` from read to lease request and `b` from grant to call: a saved outcome is kept and ends all calls over every run if and only if `a` and `b` are at most fifteen minutes |
| TimingBounds.OutcomeKeptExactlyWithinLease | packages/worker/publish-target.ts:421-430 | A saved outcome is never lost or replaced if and only if `a` is at most fifteen minutes, whatever `b` |
| TimingBounds.PublishedIdExactlyWithinLease | packages/worker/publish-target.ts:417-431 | A published target always carries the saved platform id if and only if `a` is at most fifteen minutes, whatever `b` |
| TimingBounds.SingleFlightAtNoBound | packages/worker/publish-target.ts:364-377 | No bounds give single flight on every platform |
| ProtocolRuns.SingleFlight | packages/worker/publish-target.ts:345-381 | Off YouTube two unresolved calls for one target, alive or dead, belong to the same run |
| ProtocolRuns.DeadHolderEndsCalls | packages/worker/publish-target.ts:364-376 | Off YouTube, once a holder died inside the runner, the number of provider calls for its target never grows again |
| ProtocolRuns.StaleLeaseFails | packages/worker/publish-target.ts:364-377 | A request for a stale lease fails the row exactly when it is not a resumable YouTube upload, otherwise grants the next token |
| ProtocolRuns.ConfirmedIsKept | packages/worker/publish-target.ts:421-430 | With leases asked for in time a saved outcome is never lost or replaced, on any platform; the converse is `TimingBounds.OutcomeKeptExactlyWithinLease` |
| ProtocolRuns.ConfirmedEndsCalls | packages/worker/publish-target.ts:210-244 | With leases asked for and used in time the provider is never called after the save; the converse is `TimingBounds.SurvivalExactlyWithinLease` |
| ProtocolRuns.CallAfterSaveIsLate | packages/worker/publish-target.ts:392-415 | A provider call that finds a saved outcome belongs to a superseded YouTube lease older than fifteen minutes |
| ProtocolRuns.CallFindsNoCall | packages/worker/publish-target.ts:354-377 | Off YouTube no step calls the runner while another call of the target is unresolved |
| ProtocolAnswers.AnswerEndsCalls | packages/worker/publish-target.ts:392-430 | Off YouTube, once the provider has confirmed to some run, alive or dead, no run ever calls the runner for that target again and none is inside it, saved or not |
| ProtocolAnswers.AnswerKnownStep | packages/worker/publish-target.ts:392-430 | Off YouTube every step keeps a confirmed answer saved, in the hands of its run, or lost on a failed row that no run is working on |
| ProtocolAnswers.SavedIffPublishing | packages/worker/publish-target.ts:421-430 | Off YouTube a confirmed answer is saved if and only if its row is publishing; otherwise the row failed, nothing is written and the run throws |
| AnswerRaces.AnswersEndCallsExactlyOffYouTube | packages/worker/publish-target.ts:364-415 | A confirmed answer, saved or not, ends the provider calls of its target over every run if and only if the platform is not YouTube |
| AnswerRaces.AnsweredThenCalled | packages/worker/publish-target.ts:364-377 | However soon leases are asked for and used, a YouTube run that calls the provider after a confirmed answer |
| AnswerRaces.AnswerLost | packages/worker/publish-target.ts:197-209 | On every platform a run with all leases prompt in which another run fails the row in preflight and the confirmed answer is never saved |
| ProtocolRuns.TokensAreForever | packages/worker/publish-target.ts:377-379 | A granted token stays with the run it was granted to over the rest of every run |
| ProtocolRuns.RowsPersist | packages/worker/publish-target.ts:377-379 | Over every run rows stay, keep their platform, and `attempts` never decreases |
| ProtocolRuns.SupersededRunIsFenced | packages/worker/publish-target.ts:401-431 | A progress save, yield, outcome save or finalize under a token that is not the row's `attempts` changes no table, and saving an outcome or finalizing throws |
| ProtocolRuns.PublishedLeftOnlyByGivingUp | packages/worker/publish-target.ts:197-209 | Of all steps only an unfenced failure before publishing moves a published target, it always does, and none changes its platform id |
| ProtocolRuns.PublishedIdIsTheSavedOne | packages/worker/publish-target.ts:417-431 | With leases asked for in time a published target carries exactly the saved platform id; the converse is `TimingBounds.PublishedIdExactlyWithinLease` |
| ProtocolInvariant.TokensUnique | packages/worker/publish-target.ts:377-379 | Two runs that hold a lease of one target never hold the same token |
| ProtocolInvariant.StepEffect | packages/worker/publish-target.ts:171-431 | Every step writes at most the row of its own run, and the written row, run and grant are as given case by case |
| ProtocolInvariant.CoherentStep | packages/worker/publish-target.ts:171-431 | Every step keeps the platform-independent invariant: each token names one run and is covered by `attempts`, only confirmed outcomes are saved, snapshots are not ahead of their rows |
| ProtocolInvariant.SoundTargetStep | packages/worker/publish-target.ts:345-431 | A timely step keeps a saved outcome, never leaves a pending row with one, and publishes only under it |
| ProtocolInvariant.SoundBystander | packages/worker/publish-target.ts:345-431 | A timely step keeps every other run of the target sound: a holder with the current token sees no saved outcome, a superseded holder is a YouTube run more than fifteen minutes behind |
| ProtocolInvariant.SoundStep | packages/worker/publish-target.ts:345-431 | Every timely step keeps the whole soundness invariant of a target |
| ProtocolPosts.RunPostAgrees | packages/worker/publish-target.ts:160-166 | In every reachable state a post written by some step shows the roll-up of its targets, or "publishing" while one of them is pending or publishing |
| ProtocolPosts.SettledPostShowsRollup | packages/worker/publish-target.ts:160-166 | Once a step has settled a target, every later state whose targets of that post are all published or failed shows the source's roll-up of any listing of their statuses |
| ProtocolPosts.SettlingWritesThePost | packages/worker/publish-target.ts:197-209 | A step that makes a target published or failed writes the status of its post |
| ProtocolPosts.PublishedAtIsWriteOnce | packages/worker/publish-target.ts:164-166 | `published_at`, once set, is unchanged in every later state of every run |
| ProtocolStamps.PublishedPostHasTime | packages/worker/publish-target.ts:160-166 | In every reachable state a post whose targets are all published has `published_at` |
| ProtocolStamps.LastPublicationStamps | packages/worker/publish-target.ts:164-166 | The finalize that publishes a post's last target sets `published_at` to its own time, unless it was set |
| ProtocolPosts.StepPosts | packages/worker/publish-target.ts:160-209 | A step writes no post but its own target's, and there only status and `published_at`: not at all, as publishing, or as the roll-up of the new statuses; a set `published_at` is kept |
| ProtocolTriggers.PublishedStaysDrained | packages/worker/publish-target.ts:78-113 | Once a target has been published, in every later state of every run no automation of its workspace and connection waits for its post |
| ProtocolTriggers.PlatformIdMeansDrained | packages/worker/publish-target.ts:75-113 | In every reachable state a target that gained a platform id leaves no automation waiting for its post |
| ProtocolTriggers.TriggersGainOnce | packages/worker/publish-target.ts:75-155 | After a target was published no step for it, by any run, changes a trigger or an index row or drops a job; it adds or changes media reclaim jobs only |
| ProtocolTriggers.StepFollows | packages/worker/publish-target.ts:68-155 | Only a finalize that commits a confirmed outcome touches automations, index and jobs, and then by exactly one pass |
| ProtocolTriggers.DrainedStays | packages/worker/publish-target.ts:93-113 | No step makes an automation wait again for the post of a drained target |
| Rollup.RollupIsOfTheSet | packages/core/src/domain/post-behavior.ts:68-96 | The roll-up depends neither on the order nor on the multiplicity of the statuses |
| Rollup.RollupOfSettled | packages/core/src/domain/post-behavior.ts:79-93 | With all targets settled, published, failed and partially failed hold exactly when no failure, no success, or both occur |
| Rollup.RollupCases | packages/core/src/domain/post-behavior.ts:79-95 | When each of the five stored statuses arises, pending and publishing targets included |
| Transactions.AcquireTargets | packages/worker/publish-target.ts:345-381 | Acquire grants `attempts + 1` and stamps the row, or fails a stale row, or changes nothing |
| TransactionContracts.AcquireExactly | packages/worker/publish-target.ts:345-381 | By the row under the lock: granted with the next token on a pending or expired lease, failed when an expired call cannot be resumed, otherwise nothing |
| TransactionContracts.HolderWritesExactly | packages/worker/publish-target.ts:401-430 | Progress replaces the state, a yield makes the row pending, an outcome is merged beside the other state, each exactly while the row is publishing under the holder's token |
| TransactionContracts.FailBeforeExactly | packages/worker/publish-target.ts:197-209 | The target fails with the message whatever its status, and its post shows its targets, counted by quantifying over them, with `published_at` kept |
| TransactionContracts.RollUpExactly | packages/worker/publish-target.ts:160-166 | The post shows its targets, and `published_at` is set if it was not as soon as some target is published, none publishing, and either some failed or none pending |
| TransactionContracts.FinalizeExactly | packages/worker/publish-target.ts:56-169 | Commits exactly under the current token on an unpublished row; settles that row by its outcome; one follow-up pass if confirmed and none otherwise; the post shows its targets and is stamped |
| Transactions.FinalizeTargets | packages/worker/publish-target.ts:56-169 | A fenced-off finalize changes nothing; otherwise one row is settled, other posts are unchanged, the own post shows the roll-up and keeps a set `published_at` |
| Transactions.RefinalizeAddsNothing | packages/worker/publish-target.ts:68-166 | Finalizing, failing before publishing and finalizing again leaves triggers, index, job keys and payloads, post and `published_at` as after the first time |
| Transactions.ReopenedRow | packages/worker/publish-target.ts:68-74 | A failure before publishing leaves a finalized row open to the same token, and finalizing it again restores it |
| FollowUps.Without | packages/worker/publish-target.ts:104-106 | Removing a post id from a pending list removes every occurrence of it and no other element |
| FollowUps.PassResolvesTriggers | packages/worker/publish-target.ts:78-113 | After one pass a trigger that listed the post as pending, of an automation of its workspace and connection, no longer does, gains the platform id once at the end and keeps its other ids in order; every other trigger is unchanged |
| FollowUps.WithoutKeepsOrder | packages/worker/publish-target.ts:104-106 | Removal works element by element, so the ids that stay keep their order |
| FollowUps.SelectedExactly | packages/worker/publish-target.ts:83-92 | The query selects exactly the automations of the post's workspace and connection with a trigger listing the post as pending |
| FollowUps.PassIndexes | packages/worker/publish-target.ts:114-124 | The index rows after a pass: new from the automation, or old with the flag refreshed and connection and profile kept; no other row changes |
| FollowUps.IndexAt | packages/worker/publish-target.ts:114-124 | An index key exists after a pass exactly if it did before or belongs to a resolved automation and this media id; only the latter are written |
| FollowUps.PassEnqueuesRepair | packages/worker/publish-target.ts:125-134 | Every selected automation has its repair job, with the profile, media id, workspace and key of the source, due at once |
| FollowUps.PassReclaims | packages/worker/publish-target.ts:136-155 | With limited retention every media id has its reclaim job, due exactly that many days later |
| FollowUps.PassTouchesNoOtherJob | packages/worker/publish-target.ts:125-155 | A pass adds, changes or drops no other job |
| FollowUps.NothingLeftSelected | packages/worker/publish-target.ts:83-92 | After a pass the query for waiting automations of that post is empty, whichever snapshot asks |
| FollowUps.SecondPassAddsNothing | packages/worker/publish-target.ts:78-155 | A second pass changes no trigger and no index row, adds no job, changes no payload; only media reclaim jobs differ, by run time |
| FollowUps.SecondPassIsSilentIff | packages/worker/publish-target.ts:136-155 | A second pass is no change at all if and only if no reclaim job is owed or no time has passed; otherwise every reclaim job is put off by the time passed |
| FollowUps.ResolveChosenStep | packages/worker/publish-target.ts:93-135 | Automations resolved one at a time, in any order, end as all resolved at once |
| FollowUps.RepairKeyInjective | packages/worker/publish-target.ts:133-133 | For one media id two profiles never share a repair job key |
| FollowUps.ReclaimKeyInjective | packages/worker/publish-target.ts:151-151 | Two media ids never share a reclaim job key |
| Preflight.ChecksSufficeUnlessEmptyId | packages/worker/publish-target.ts:260-288 | After the checks pass, building the input throws if and only if the empty string is a primary media id without a row |
| Preflight.BuildThrowsWhenMissing | packages/worker/publish-target.ts:282-288 | Building the input throws if and only if some primary media id has no row |
| Preflight.ThrowsExactlyOnEmptyId | packages/worker/publish-target.ts:245-288 | Preflight as a whole throws if and only if the group exists, the first media id without a row is the empty string, and every thumbnail is an image |
| Preflight.EmptyIdPassesAndThrows | packages/worker/publish-target.ts:260-288 | A concrete segment that passes the checks and throws |
| Preflight.PassedInput | packages/worker/publish-target.ts:274-344 | Passing preflight yields segments and media in order, `order` equal to the index, every media row used, every thumbnail reference an image, a supported platform, and no segment with rule errors |
| PreflightContract.PassedExactly | packages/worker/publish-target.ts:231-344 | Preflight passes with a given input if and only if the first group with the target's id exists, every media and thumbnail row is ready, undeleted and of the workspace, thumbnails are images, the platform is supported, the input is the segments field by field, and every segment satisfies the rules |
| PreflightContract.RefusedBecause | packages/worker/publish-target.ts:245-344 | A refusal has one of the five reasons of the source, with its message; whatever neither passes nor is refused names the empty media id |
| PreflightContract.MediaIdsAre | packages/worker/publish-target.ts:232-240 | The media ids are those of the references and of their thumbnails |
| Preflight.FindGroup | packages/worker/publish-target.ts:231-231 | Finds the first group with the id, and none exactly if no group has it |
| Preflight.ValidateSegments | packages/worker/publish-target.ts:333-344 | The result is the errors of the first segment that has any, and none exactly when every segment satisfies the rules |
| UninterruptedRun.NoTargetIsForgotten | packages/worker/publish-target.ts:171-486 | A call replies null only for an unreadable or settled target, throws only with it pending or publishing, and otherwise names a time to come back |
| UninterruptedRun.ConfirmedRunPublishes | packages/worker/publish-target.ts:210-244 | From any unpublished status a fresh call publishes exactly the saved platform id without a provider call, whatever content, media and rules have become |
| CallOutcomes.SavedOutcomePublishes | packages/worker/publish-target.ts:241-244 | A saved outcome is published under its id with one pass of follow-up work and the post shown and stamped |
| CallOutcomes.ConfirmedCallPublishes | packages/worker/publish-target.ts:385-431 | On a due target in order, a confirmed answer is published under its id, saved beside the runner's progress, followed up once for the target's own post, connection, workspace and media, and shown on the post; reply null |
| CallOutcomes.RejectedCallFails | packages/worker/publish-target.ts:431-466 | A rejection fails the target, or makes it pending and throws, with the message as error |
| CallOutcomes.ContinuedCallYields | packages/worker/publish-target.ts:416-420 | A resume time makes the target pending with its progress and is the reply |
| CallOutcomes.DyingCallThrows | packages/worker/publish-target.ts:392-415 | A runner that dies leaves the target leased with its progress, and the call throws |
| CallOutcomes.UnresolvableCallFails | packages/worker/publish-target.ts:385-391 | Unresolvable media URLs fail the target without a provider call |
| CallOutcomes.RefusedCallFails | packages/worker/publish-target.ts:245-344 | A refused target fails with the reason as its error, and its post shows it |
| CallOutcomes.SettledCallDoesNothing | packages/worker/publish-target.ts:183-215 | An absent or settled target, or one of a missing or deleted post, is left alone |
| UninterruptedRun.PublishOutcome | packages/worker/publish-target.ts:345-466 | After preflight, null means settled, a throw means pending again or, after a rejecting runner, still leased, and a lease not granted means waiting fifteen minutes |
| UninterruptedRun.HoldOutcome | packages/worker/publish-target.ts:385-466 | A granted lease is settled, yielded back to pending, or left publishing exactly when the runner rejects |
| UninterruptedRun.SettleOutcome | packages/worker/publish-target.ts:416-466 | Under a current lease each outcome leads to its status, its platform id and its reply |
| UninterruptedRun.DeadLeaseVisit | packages/worker/publish-target.ts:354-384 | A visit settles a dead lease if and only if an outcome is saved, preflight refuses, or preflight passes and the lease has expired; any other visit changes nothing and throws or waits; takeover without a saved outcome is for resumable YouTube uploads only |
| UninterruptedRun.DeadLeasesAreBounded | packages/worker/publish-target.ts:354-384 | Re-visited no earlier than each returned time, with unchanged media and rules a dead lease is settled by the third visit if and only if an outcome is saved or its content does not throw on the empty media id, and by the second except in one boundary case |
| UninterruptedRun.EmptyIdIsNeverSettled | packages/worker/publish-target.ts:260-288 | A dead lease without a saved outcome whose content throws on the empty media id is unchanged by any number of visits |
| UninterruptedRun.StuckLease | packages/worker/publish-target.ts:260-288 | A concrete dead lease that throws on every visit |
| RunRefinement.VisitIsARun | packages/worker/publish-target.ts:171-486 | An uninterrupted call takes protocol steps, with the runner saving and answering what the sequential description says, to exactly its tables, reply and number of provider calls |
| RunRefinement.PublishLeads | packages/worker/publish-target.ts:345-466 | The part from lease request to reply is a sequence of enabled protocol steps with the same effect |
| PublishStore.Store.SelectStatuses | packages/worker/publish-target.ts:160-162 | The listing holds exactly the statuses of the post's targets |
| PublishStore.Store.FailBeforePublish | packages/worker/publish-target.ts:197-209 | The statements have the effect of the failure transaction, using the source's roll-up of an unordered listing |
| PublishStore.Store.AcquireLease | packages/worker/publish-target.ts:345-381 | The statements have the effect and the result of the acquire transaction |
| PublishStore.Store.ResolveAutomations | packages/worker/publish-target.ts:78-135 | The loop over the selected automations, in any order, has the effect of resolving them all |
| PublishStore.Store.ReclaimMediaLater | packages/worker/publish-target.ts:136-155 | The loop over distinct media ids leaves one reclaim job per media id |
| PublishStore.Store.RollUpPost | packages/worker/publish-target.ts:160-166 | Status and `published_at` become those of the roll-up transaction |
| PublishStore.Store.FinalizeOutcome | packages/worker/publish-target.ts:56-169 | The statements and loops together have the effect and the result of the finalize transaction |
| PublishStore.Store.PublishTarget | packages/worker/publish-target.ts:171-486 | The whole procedure has the tables, the reply and the provider call of the sequential description |
| BoundaryWalk.FindBoundaryViolations | scripts/check-connections-boundary.ts:48-81 | On every import graph it terminates, throws exactly when a reachable path cannot be read, visits exactly the reachable files, finds exactly one genuine violation per forbidden file and per forbidden import, and is empty if and only if the boundary holds |
| BoundaryNames.ModuleResolvesTo | scripts/check-connections-boundary.ts:25-33 | A relative import leads to the first that exists of the path, the path with `.ts`, and its `index.ts` |
| BoundaryNames.AliasResolvesTo | scripts/check-connections-boundary.ts:35-46 | The package alias, its worker entry and its source paths lead where the source says |
| BoundaryNames.AliasIsOneOfThree | scripts/check-connections-boundary.ts:35-46 | Nothing else is an alias |
| BoundaryNames.SpecifierLeadsTo | scripts/check-connections-boundary.ts:60-76 | A forbidden specifier leads nowhere, a dotted one by path, any other by alias |
| BoundaryNames.ForbiddenFileIs | scripts/check-connections-boundary.ts:56-58 | The forbidden files are the two modules of that name in whatever directory |
| BoundaryNames.ForbiddenImportIs | scripts/check-connections-boundary.ts:61-65 | The forbidden imports are the two packages and everything below them |
| BoundaryNames.ScopedPackageIs | scripts/check-connections-boundary.ts:61-63 | A scoped package is its first two components |
| BoundaryNames.ReportReads | scripts/check-connections-boundary.ts:57-65 | A report is its chain, with the specifier last if there is one, joined by arrows |
| BoundaryWalk.Walker.Walk | scripts/check-connections-boundary.ts:51-78 | The walk settles every file it visits, keeps what was visited and reported, and visits each file along a path without repetition |
| BoundaryWalk.ClosedContainsPath | scripts/check-connections-boundary.ts:60-77 | A set with the entry that is closed under imports contains every reachable file |
| BoundaryWalk.CleanIffNothingFound | scripts/check-connections-boundary.ts:48-81 | An exact list of violations is empty if and only if no reachable file is forbidden or imports a forbidden package |
| BoundaryWalk.FoundIsExact | scripts/check-connections-boundary.ts:51-80 | After a completed walk every violation is real, nothing owed is missing, nothing is reported twice |
| BoundaryWalk.Unique | scripts/check-connections-boundary.ts:80-80 | Every element is kept once |
| BillingOutbox.KeysAreInjective | apps/api/src/automation-providers.ts:452-473 | Different pairs of event id and message kind never share a key, whatever colons the ids contain |
| BillingOutbox.KeysOfKinds | apps/api/src/automation-providers.ts:452-473 | The listed keys are those of the messages `process` writes, in order and distinct |
| BillingOutbox.DeliveryStores | apps/api/src/automation-providers.ts:725-798 | An undisturbed delivery of each kind of event stores exactly its messages, by their literal keys |
| BillingOutbox.SuppressedIs | packages/services/src/messaging.ts:213-238 | Which messages preferences hold back, per kind; identification and payment failure notice never |
| BillingOutbox.AlreadyDeliveredIff | apps/api/src/automation-providers.ts:699-713 | The two-key count recognises exactly the events all of whose own messages are stored |
| BillingOutbox.DeliverWritesExactly | apps/api/src/automation-providers.ts:673-798 | A message is stored after a delivery if and only if it was before, or the delivery is not stale, knows the address, is not told to suppress it and survives to its write |
| BillingOutbox.DeliverFrame | apps/api/src/automation-providers.ts:673-798 | A delivery only adds keys of its own event, without duplicates, and claims its event |
| BillingOutbox.StaleIs | packages/services/src/billing-webhooks.ts:39-54 | Only subscription and add-on events are dropped as outdated, and only by the delivery that claims them |
| BillingOutbox.PaymentStoredIff | apps/api/src/automation-providers.ts:774-787 | Over any deliveries a payment message is stored if and only if some delivery of it survives to the write, knows the address, and lifecycle messages are on |
| BillingOutbox.NeverMoreThanOwed | apps/api/src/automation-providers.ts:673-798 | Over any deliveries, each cut off anywhere, the stored messages of an event are a duplicate-free subset of those it owes |
| BillingOutbox.MessageStoredIff | apps/api/src/automation-providers.ts:673-798 | After any deliveries, of this and other events, the i-th message is stored if and only if some delivery of the event survives to that write, knows the address, does not suppress it, and is not the one that claims the event as outdated |
| BillingOutbox.ClaimedIff | packages/services/src/billing-webhooks.ts:46-54 | An event id is claimed if and only if it was before or some delivery of it got anywhere |
| BillingOutbox.ExactlyOnce | apps/api/src/automation-providers.ts:673-798 | After one complete delivery that suppresses nothing they are exactly those owed, and no later deliveries of any event change that; `MessageStoredIff` has the general case |
| BillingOutbox.RedeliveryIsSilent | apps/api/src/automation-providers.ts:699-713 | Redelivering a fully delivered event changes nothing at all |
| BillingOutbox.OutdatedEventSpeaksOnReplay | packages/services/src/billing-webhooks.ts:46-54 | An event judged outdated sends nothing at first and all its messages on the next complete delivery |
| BillingOutbox.Sink.Process | apps/api/src/automation-providers.ts:673-798 | The statements, with early exits and keyed writes in sequence, have the effect of one delivery |
| BillingOutbox.Sink.CountExisting | apps/api/src/automation-providers.ts:701-710 | The loop counts the rows with either key |
| DmMessage.ButtonsConserved | apps/api/src/automation-providers.ts:117-161 | The payload carries every button exactly once if and only if it does not answer a comment with links, and then links first with the order of each kind kept |
| DmMessage.PayloadIs | apps/api/src/automation-providers.ts:117-161 | Which payload is sent in which case, and how each link and quick reply is written in it |
| DmMessage.LinksKeepOrder | apps/api/src/automation-providers.ts:127-133 | Selecting the links keeps their relative order |
| DmMessage.QuickRepliesKeepOrder | apps/api/src/automation-providers.ts:120-126 | Selecting the quick replies keeps their relative order |
| DmMessage.CommentReplyShowsLinks | apps/api/src/automation-providers.ts:134-139 | A comment reply is the trimmed message, an empty line and the lines of the links in order, each at its place, and nothing else |
| DmMessage.LinesRead | apps/api/src/automation-providers.ts:135-137 | The lines are title, colon and address of each link, separated by line breaks |
| DmMessage.TrimEnd | apps/api/src/automation-providers.ts:138-138 | Exactly the trailing white space is removed |
| MediaUrls.ResolveMediaUrls | packages/worker/resolve-media-urls.ts:33-111 | For every completion order each of the three fields, if on the private host, ends as the presigned URL of its own stored key or else of its path less one slash, and otherwise unchanged; it fulfils exactly when unconfigured or every such key signs; on rejection each field is as it was or as it must end |
| MediaUrls.Plan | packages/worker/resolve-media-urls.ts:63-108 | There is a task for a field and key exactly if the field is to be signed under that key, captured before any completion |
| MediaUrls.Settle | packages/worker/resolve-media-urls.ts:110-110 | Tasks completing in any order leave every field resolved if none rejects |
| MediaUrls.Complete | packages/worker/resolve-media-urls.ts:71-75 | One completion resolves its own field and disturbs no completed task, even when media objects are shared |

## Left out

- ProtocolPosts.SettledPostShowsRollup: holds for serial transactions; two overlapping transactions of sibling targets may each miss the other's status.
- BoundaryWalk.FindBoundaryViolations: uniqueness is of chains kept as sequences; two chains of odd file names may render as the same string, and the result then holds that string once.
- BillingOutbox.ExactlyOnce: covers a delivery no preference suppresses; `BillingOutbox.MessageStoredIff` covers all others. Deliveries are serial.
- MediaUrls.ResolveMediaUrls: within one call a key signs to one value, so two tasks of a shared object agree.
- Operator and maintenance writers of the same rows: `retryTarget`, `updateTarget` and `publishNow` of `packages/services/src/posts.ts`, `failJob` of `apps/api/src/execute-job.ts`, `stopBilledWorkspaceWork`. They reset or rewrite rows on purpose.
- Deletion of rows, and edits or soft deletion of posts, during a run of the protocol.
- An event application that fails, and the workspace setup status after a fresh one: both end the delivery, as a cut does.
- Payload normalization and the lookup of the billing owner, before the event is applied.
- What applying a billing event does to subscriptions, add-ons and transactions.
- The Instagram send itself, the recipient field, and audience lookup: network calls.
- The segment name label, tags, provider settings, and media columns that are only passed through.
- `platform_post_url` and `posted_at`, written beside the platform id and read by no modelled step.
- Telemetry after finalizing, which writes nothing.
- SQL and JSON encoding, regular expressions that extract specifiers, URL parsing, cryptographic signing, log output.
- Upper-casing of media types beyond ASCII letters.
