# LaunchOS, verified in Dafny

Dafny models of the parts of LaunchOS where a mistake would be quiet: a follow-on job that may run twice at once, a
sweep that insures outbound mail, a rate limiter that forgets, an address recogniser, two ways to create the owner's
account, a website pipeline, the guard that refuses mock adapters, and a few searches, parsers and roundings. Each
module models one part as its code behaves, and proves what the code or its comments promise; where the two disagree
the model follows the code, and the disagreement is a theorem.

`dafny verify dfyconfig.toml` checks everything.

| file | what it models |
|---|---|
| `ProposalFollowOn.dfy` | the accepted-proposal job, every read, external call and conditional write a step of its own |
| `ProposalSweep.dfy` | the sweep that re-queues lost follow-ons, over all proposals of an organisation |
| `OutboundDelivery.dfy` | the outbound sweep over a table of messages, and one message's life with sweep, workers and web interleaved |
| `RateLimiter.dfy` | the fixed-window limiter, its garbage collection and its history |
| `LocalAddress.dfy` | the IPv4 and IPv6 recognisers behind `isLocalDatabaseUrl` |
| `OwnerAccount.dfy`, `SupplierDetails.dfy` | `bootstrap` and the seed's `seedOwnerAccount` on one database; the seed's supplier backfill |
| `SiteBuilds.dfy`, `SiteBuildRuns.dfy` | one undisturbed tick over every build; ticks, people and client emails that overlap |
| `AdapterGuard.dfy` | fourteen resolvers and the refusal made by comparing their strings |
| `NotificationTone.dfy`, `NavMatch.dfy` | the token search behind a notification's tone; the two longest-prefix searches of the navigation |
| `VatRate.dfy`, `PushKey.dfy` | VAT rate recovery under rounding; the VAPID key decoder |
| `Text.dfy`, `Wrappers.dfy` | `split`, `join` and `trim`; `Option` and `Result` |

## Assumptions

- Members and accounts reference existing users and organisations; slugs and emails are unique.
- Clocks do not run backwards, and the database's clock is the job's `now` within one outbound tick.
- One outbound sweep runs at a time per organisation. Everything else may overlap, and does in the models.
- A queue holds at most one waiting job per singleton key; one database statement is atomic, and a transaction locks only
  what it updates (PostgreSQL's read committed); at most one project per proposal and one acceptance per proposal are
  kept by their indexes, and an accepted proposal has its acceptance.
- Stripe, SMTP, the hosting provider and the site generator either return or throw.

## What turned out otherwise than the comments say

- **The loser of the project insert race dies.** `startProject` speaks of treating a refusal as done, but only the
  read before the insert refuses; the unique index throws. `ProposalFollowOn.RunDiesExactly` says exactly when a run
  dies, and `LaterRunFinishes` that the work does not.
- **The follow-on sweep never stops, and so starves.** It selects the fifty longest decided proposals without
  `followOnQueuedAt`, which only acceptance stamps: a proposal whose hand-on was lost is re-queued every tick, done or
  not (`ProposalSweep.SweepNeverStops`), each re-run of a `none` or `manual` payment rings the owner's bell again
  (`ProposalFollowOn.BellRingsOnEveryRerun`), and with fifty such proposals no later one is ever reached
  (`StarvedExactly`).
- **A Checkout session need not collect what was agreed.** It subscribes to the package's price, which nothing compares
  with the proposal's monthly fee (`CheckoutCollectsWhatWasAgreed`).
- **A rebuilt payload need not be the lost one.** The amounts are frozen with the proposal, but a merged or deleted client
  or package moves under it (`RebuiltUpToMerges`).
- **A give-up marker can be erased without a failed write.** A send writes back the whole metadata its claim read, so a
  claim taken between the sweep's query and its stamp announces the message twice
  (`OutboundDelivery.OverlapAnnouncesTwice`). `NoFurtherAlertExactly` says when no further alert can come.
- **`sent` is not final while a send is in flight.** The audit is written inside the same `try` as the outcome: if it
  throws, the catch block queues a message that has gone, and it goes again (`LateThrowIsSentTwice`); and past its
  five-minute lease a message is sent by two workers (`SlowSendIsSentTwice`). `SentIsFinalExactly` and
  `NoFurtherDeliveryExactly` give the exact conditions.
- **A cancel can be undone by the job.** `advanceSiteBuild` is unconditional, and a tick writes from the row it read:
  a build cancelled or approved in mid-tick carries on, and of two overlapping ticks the slower sends the build back
  (`SiteBuildRuns.CancelledBuildComesBack`, `OverlapGoesBack`). `DecisionStands` says exactly when a decision is safe.
  A failed build is final: nothing re-queues it, whatever the note on metering says of a retry.
- **Two presses can become two emails.** The claim before telling a client reads the row without locking it and then
  updates it by id (`TwoPressesTwoEmails`); one at a time they cannot (`OneEmailPerApproval`).
- **A re-seed overwrites what was typed** when the organisation has other details but no legal name
  (`SupplierDetails.BackfillKeeps`).
- **A limit below one acts as one**, since a fresh window's first hit is never refused (`RateLimiter.Rule.Budget`).
- **The help page and the navigation disagree** on tables with an empty href or one that ends in a slash, and on no
  other (`NavMatch.AgreeExactly`).
- **A VAT rate is not always recovered**: 999 pence at 50% prints 50.1%. Ten pounds is exactly the bound, and the
  core's own two-decimal version of the same sum needs a hundred (`VatRate.RecoversEveryRate`).
- **`ADS_ADAPTER=gogle` is ignored** where a misspelt `IMAGEGEN_ADAPTER` is refused
  (`AdapterGuard.AdsNameIsHeard`, `UnknownGeneratorIsRefused`). And an adapter with one live half is not among the
  mocks the startup log names (`WarnedExactly`).

## Model

| member | source | states |
|---|---|---|
| `ProposalFollowOn.CheckoutCollectsWhatWasAgreed` | apps/worker/src/jobs/proposals-accepted.ts:124-298 | a checkout is opened exactly when something is due and the fee, if there is one, has a price; the session then collects the part due and one month of the rest exactly when there is no monthly fee or the package's price is that fee |
| `ProposalFollowOn.PayloadCountsLines` | packages/core/src/proposals/pricing.ts:155-188 | both payloads, line by line: with none both amounts are zero; a setup line of a monthly shape and a one-off line of a one-off one are due at once, a monthly line recurs unless the shape is one-off, any other line counts for nothing |
| `ProposalFollowOn.RebuiltUpToMerges` | apps/worker/src/jobs/proposals-send.ts:133-148 | whatever edits are tried and whatever is merged or deleted after acceptance, the rebuilt amounts are the agreed ones, and the payload is the original exactly when neither client nor package has moved |
| `ProposalFollowOn.AtMostOnce` | apps/worker/src/jobs/proposals-accepted.ts:196-428 | under any interleaving of runs, stale reads and crashes: at most one payment notice, always of the stamped session; at most one project; the countersigning audited at most once |
| `ProposalFollowOn.StampsNeverChange` | apps/worker/src/jobs/proposals-accepted.ts:196-343 | signed copy, session with its notice, and project keep their first value for the rest of any run |
| `ProposalFollowOn.JobMovesOnlyUnplacedTasks` | apps/worker/src/jobs/proposals-accepted.ts:463-495 | a step of the job changes no task that is on a project, and puts the others on the one project |
| `ProposalFollowOn.DoneMeansDone` | apps/worker/src/jobs/proposals-accepted.ts:160-189 | in every reachable state the done stamp is vouched for by a finished run: document filed, project present for its client, tasks adopted, and a session stamped or a reason for none in what that run was given: nothing due, a fee without a price, or nobody to tell |
| `ProposalFollowOn.DoneMeansEverythingDone` | apps/worker/src/jobs/proposals-accepted.ts:160-343 | over every history, prices, recipients and payloads moving: done means the one notice of the stamped session, unless at some moment no checkout was due on the finished run's payload or there was nobody to tell |
| `ProposalFollowOn.DoneWhenNothingMoves` | apps/worker/src/jobs/proposals-accepted.ts:160-189 | in particular, with price, recipient and payload unchanged, done means the notice whenever a checkout was due and there was anyone to tell |
| `ProposalFollowOn.OneCleanRunFinishes` | apps/worker/src/jobs/proposals-accepted.ts:160-428 | from any reachable state one uninterrupted run finishes the job if and only if the work can be started, changing nothing that was stamped; a signed copy it files is audited once |
| `ProposalFollowOn.BellRingsOnEveryRerun` | apps/worker/src/jobs/proposals-accepted.ts:252-274 | a finished proposal without a checkout rings the owner's bell once more for each re-run, as often as one likes |
| `ProposalFollowOn.RunDiesExactly` | packages/core/src/projects/crud.ts:103-169 | over every history a run nobody crashed is dead exactly when its seed found no client, or another run inserted between its last empty read and its own insert |
| `ProposalFollowOn.LaterRunFinishes` | apps/worker/src/jobs/proposals-accepted.ts:387-428 | after a run that died of itself, any later run left alone finishes the job on the one project |
| `ProposalFollowOn.LoserOfTheInsertDies` | packages/core/src/projects/crud.ts:142-169 | the race can be lost on any payload with a client |
| `ProposalSweep.AnswerExactly` | packages/core/src/proposals/sweeps.ts:160-170 | an ordered, limited answer to the query holds, in its first n, exactly the waiting proposals with fewer than n older |
| `ProposalSweep.ProposalQueue.RunProposalSendSweep` | apps/worker/src/jobs/proposals-send.ts:103-123 | one organisation's turn queues exactly the fifty oldest waiting proposals, or the oldest up to the send that threw, and none when the approvals before it throw |
| `ProposalSweep.SweepNeverStops` | apps/worker/src/jobs/proposals-send.ts:113-119 | whatever ran meanwhile, the next full tick queues an unstamped proposal exactly when fewer than fifty unstamped ones are older or its job still waits |
| `ProposalSweep.EachTickQueuesAnother` | apps/worker/src/jobs/proposals-send.ts:113-119 | a worker that takes the job does not end it: the next full tick queues another, if fewer than fifty are older |
| `ProposalSweep.StampedIsLeftAlone` | packages/core/src/proposals/sweeps.ts:160-170 | a stamped proposal with no job waiting is never queued again by any run |
| `ProposalSweep.AcceptanceLeaves` | packages/core/src/proposals/accept.ts:268-300 | a job waits unless the hand-on was lost, and the sweep sees the proposal unless the stamp followed the hand-on |
| `ProposalSweep.StarvedExactly` | packages/core/src/proposals/sweeps.ts:160-170 | an unstamped proposal is never queued by any run of ticks exactly when fifty unstamped ones were decided before it |
| `OutboundDelivery.QueriesPartition` | apps/worker/src/jobs/outbound-sweep.ts:58-127 | the two queries and the marker split the overdue messages, none in both and none in neither |
| `OutboundDelivery.Outbox.QueueMessage` | apps/web/src/lib/queue.ts:119-132 | the message is committed whether or not its enqueue is lost, and a key never waits twice |
| `OutboundDelivery.Outbox.NotifyGivenUpMessages` | apps/worker/src/jobs/outbound-sweep.ts:180-232 | one alert tried for each message past the far edge, a marker for each whose write succeeds, nothing else touched; `failed` is the number of those whose write threw and `processed` that of the others |
| `OutboundDelivery.Outbox.RunOutboundSweep` | apps/worker/src/jobs/outbound-sweep.ts:243-274 | after a tick every message between the edges whose send succeeded has exactly one waiting job, whatever was lost before and whatever became of the alerts; other queues are as they were; `failed` is the number of those whose send threw and `processed` that of the others |
| `OutboundDelivery.NoFurtherAlertExactly` | apps/worker/src/jobs/outbound-sweep.ts:110-232 | between ticks, no run whatever raises another alert if and only if the message is deleted, or is out of the queue or marked and no claim in flight read it unmarked and can still put it back |
| `OutboundDelivery.AnnouncedOnceButFor` | apps/worker/src/jobs/outbound-sweep.ts:110-232 | over any run every alert but one at most is paid for by a marker write lost or undone by such a claim; never re-enqueued once announced; at most one job waiting |
| `OutboundDelivery.OverlapAnnouncesTwice` | packages/core/src/support/send-queued-message.ts:491-540 | a run in which no write is lost and no lease outlived, and the message is announced twice |
| `OutboundDelivery.PromptSendsAreFinal` | packages/core/src/support/send-queued-message.ts:65-97 | while sends record within their lease and no audit throws after the record: recorded sent at most once, failed exactly on the fifth refusal |
| `OutboundDelivery.PromptOutcomeIsFinal` | packages/core/src/support/send-queued-message.ts:457-568 | and in such a run a status of sent or failed never changes again |
| `OutboundDelivery.SentIsFinalExactly` | packages/core/src/support/send-queued-message.ts:491-568 | a message recorded sent stays so over every run if and only if no send of it is in flight |
| `OutboundDelivery.NoFurtherDeliveryExactly` | packages/core/src/support/send-queued-message.ts:491-568 | out of the queue, it is never recorded sent again, and a failed one stays failed, if and only if every send in flight has recorded and is on its last attempt |
| `OutboundDelivery.LateThrowIsSentTwice` | packages/core/src/support/send-queued-message.ts:509-541 | a run that keeps every lease and records the message sent twice, by an audit that throws |
| `OutboundDelivery.SlowSendIsSentTwice` | packages/core/src/support/send-queued-message.ts:65-97 | one send past its lease, nothing thrown: the same message is recorded sent twice |
| `OutboundDelivery.SweepRepairs` | apps/worker/src/jobs/outbound-sweep.ts:243-274 | from any reachable state an uninterrupted sweep leaves a due message exactly one waiting job |
| `RateLimiter.RateLimiter.Allow` | apps/web/src/lib/rate-limit.ts:21-31 | the answer is the pure limiter's on the swept map, and the map is the one that leaves |
| `RateLimiter.RateLimiter.RetryAfterSeconds` | apps/web/src/lib/rate-limit.ts:34-38 | the function whose meaning `RetryAfterIsLeast` gives for every number of seconds waited |
| `RateLimiter.RateLimiter.Sweep` | apps/web/src/lib/rate-limit.ts:44-49 | the loop leaves exactly the live buckets when the map is full, and all of them otherwise |
| `RateLimiter.KeysAreIndependent` | apps/web/src/lib/rate-limit.ts:21-31 | over any ordered history each key is answered as by a limiter of its own that never sweeps and sees no other key |
| `RateLimiter.OthersKeepSlot` | apps/web/src/lib/rate-limit.ts:21-49 | hits on other keys, sweeps included, leave a key's slot as it was but for expired ones |
| `RateLimiter.RetryAfterIsLeast` | apps/web/src/lib/rate-limit.ts:34-38 | never negative, zero exactly when a hit would pass now; and after any whole number of seconds a hit passes exactly when that is no less, whatever other keys did meanwhile |
| `RateLimiter.KeyIsCapped` | apps/web/src/lib/rate-limit.ts:21-31 | over every history of hits on any keys, in a half-open interval of any length a key passes at most the cap: `limit` for each window that fits, rounded up, and `limit - 1` more unless the length is one more than whole windows |
| `RateLimiter.CapIsMet` | apps/web/src/lib/rate-limit.ts:21-31 | for every interval some history meets the cap, so it is the maximum |
| `RateLimiter.CapOfOneWindow` | apps/web/src/lib/rate-limit.ts:21-31 | in a window's length that is `2 * limit - 1` |
| `RateLimiter.MapStaysSmallOrLive` | apps/web/src/lib/rate-limit.ts:40-49 | after any hit the map holds at most 1000 buckets or every bucket is live |
| `LocalAddress.Ipv4OctetsExactly` | packages/db/src/env-target.ts:119-124 | a host is read as four octets exactly when it spells them, leading zeros up to three digits included |
| `LocalAddress.IsPrivateIpv4Exactly` | packages/db/src/env-target.ts:119-128 | true exactly on spellings of addresses in 10/8, 127/8, 172.16/12 and 192.168/16, as ranges of the 32-bit value |
| `LocalAddress.ParseOfPrint` | packages/db/src/env-target.ts:136-147 | parsing undoes printing for any eight groups, any padding to four digits and any elided run of zeros |
| `LocalAddress.Ipv6GroupsExactly` | packages/db/src/env-target.ts:136-147 | the language of the parser is exactly the lower-case forms 1 and 2 of section 2.2 of RFC 4291, each read as the groups it spells |
| `LocalAddress.UlaPrefixIsRange` | packages/db/src/env-target.ts:163-167 | the mask test is membership of fc00::/7 |
| `LocalAddress.LocalGroupsIsValue` | packages/db/src/env-target.ts:157-167 | the verdict on groups is a predicate of the 128-bit value alone |
| `LocalAddress.IsLocalIpv6Exactly` | packages/db/src/env-target.ts:157-167 | true exactly when the text before any zone spells 1, an address in fc00::/7, or a private IPv4 address mapped |
| `LocalAddress.SpellingNeverDecides` | packages/db/src/env-target.ts:157-167 | two spellings of one address get one verdict |
| `LocalAddress.IsLocalHostExactly` | packages/db/src/env-target.ts:116-186 | a bare host is local exactly when it is one of three names, spells a private or loopback IPv4 address, or spells a local IPv6 one |
| `LocalAddress.HostTestsAreDisjoint` | packages/db/src/env-target.ts:174-186 | no host passes more than one of the three tests |
| `OwnerAccount.Database.EnsureOrganisation` | packages/db/src/bootstrap.ts:255-260 | found by slug or inserted; an existing row is never touched |
| `OwnerAccount.Database.EnsureUserRow` | packages/db/src/bootstrap.ts:263-271 | found by email or inserted |
| `OwnerAccount.Database.EnsureOwnerMembership` | packages/db/src/bootstrap.ts:306-332 | refuses on a membership that is not an active owner's, changing nothing |
| `OwnerAccount.Database.EnsureOwnerCredential` | packages/db/src/bootstrap.ts:282-295 | written only for a user without an account row of any kind, and then as `OwnerCanSignIn` says |
| `OwnerAccount.Database.RunBootstrap` | packages/db/src/bootstrap.ts:351-368 | the transaction: a refusal leaves the rows as they were |
| `OwnerAccount.Database.SeedOwnerAccount` | packages/db/src/seed.ts:762-777 | the same helpers in the seed's order, without a transaction |
| `OwnerAccount.SeedMatchesBootstrap` | packages/db/src/seed.ts:745-777 | the seed refuses on exactly the databases the bootstrap refuses on, leaves those wholly unchanged, and otherwise ends in the same rows |
| `OwnerAccount.CrashesThenSeedMatchesBootstrap` | packages/db/src/seed.ts:745-777 | any number of runs crashed at any write and then one that goes through end where a single bootstrap would, up to the choice of fresh ids |
| `OwnerAccount.OwnerCanSignIn` | packages/db/src/bootstrap.ts:273-332 | organisation, user, membership and account are each found, and their table left as it was, or added as the one new row, with the configured name, slug, email and password; an added account is a `credential` of the owner's; the owner ends an active owner |
| `SupplierDetails.Organisation.BackfillSupplier` | packages/db/src/seed.ts:722-743 | the row is the backfilled one |
| `SupplierDetails.BackfillKeeps` | packages/db/src/seed.ts:698-743 | nothing typed is lost exactly when a legal name is on file or all that was typed is the placeholder |
| `SupplierDetails.BackfillSettles` | packages/db/src/seed.ts:722-743 | a second backfill changes nothing, no legacy country name is left, and a row with its legal name on file has only that name put right |
| `SiteBuilds.SiteBuildTable.AdvanceSiteBuild` | packages/core/src/site-builds/site-builds.ts:95-138 | one row is written whatever stage it is at; only a failure leaves an error; a missing build is reported |
| `SiteBuilds.SiteBuildTable.AdvanceOne` | apps/worker/src/jobs/site-build-run.ts:91-171 | a build moves on or throws; a throw leaves only its own row, and only the review stage may have been written by then |
| `SiteBuilds.SiteBuildTable.RunSiteBuilds` | apps/worker/src/jobs/site-build-run.ts:47-88 | every build ends as its own row and its own answers say, so a failure touches no other; `advanced`, `failed` and `awaitingReview` are the numbers of builds that moved on, failed and came to review |
| `SiteBuilds.OneStageATick` | apps/worker/src/jobs/site-build-run.ts:91-171 | a tick moves a build to the next stage and clears its error, or fails it with a reason and keeps its site and hosting on the row; at review, approved or finished it leaves it alone |
| `SiteBuilds.WhatAStageStores` | apps/worker/src/jobs/site-build-run.ts:97-166 | generating stores the site it was given, provisioning the hosting it was given, and nothing else changes either; a failure's error is the reason of the call that threw, or says which of lead, pages and document root is missing; the lead stays |
| `SiteBuilds.FourTicksToReview` | apps/worker/src/jobs/site-build-run.ts:97-166 | a queued build is at review after four ticks and no sooner if and only if it has a lead, pages and a document root and nothing throws, the owner's notice included; otherwise it has failed |
| `SiteBuilds.RestIsFinal` | apps/worker/src/jobs/site-build-run.ts:58-65 | no number of ticks moves a build at rest |
| `SiteBuildRuns.UndisturbedJobIsATick` | apps/worker/src/jobs/site-build-run.ts:91-166 | read, written and told with nothing between, a job of the interleaved model does what one tick does |
| `SiteBuildRuns.ChainReachesTheClient` | apps/worker/src/jobs/site-build-run.ts:47-171 | from an empty table, a build for which everything goes right passes each stage once, and one approval and one press tell its client once |
| `SiteBuildRuns.ReviewIsEarned` | apps/worker/src/jobs/site-build-run.ts:91-166 | whatever overlaps, dies or throws, review comes after uploading, after provisioning, after generating, after queued, with a generated site stored |
| `SiteBuildRuns.ProvisionedMeansGenerated` | apps/worker/src/jobs/site-build-run.ts:102-121 | at provisioning, uploading or review a generated site is stored |
| `SiteBuildRuns.PeopleDecide` | packages/core/src/site-builds/notify-client.ts:139-184 | a client was told only if a person pressed for it after a person had approved |
| `SiteBuildRuns.DecisionStands` | packages/core/src/site-builds/site-builds.ts:95-138 | a build at rest keeps its row, whatever else happens and nobody pressing, if and only if nothing in flight holds it: no tick, no press that has read it, no email to its client |
| `SiteBuildRuns.OnlyAFailedEmailReopens` | packages/core/src/site-builds/notify-client.ts:139-226 | a failed email leaves the build open to another press, one that went out does not |
| `SiteBuildRuns.OneEmailPerApproval` | packages/core/src/site-builds/notify-client.ts:139-184 | when ticks and people wait for each other a client gets at most one email for each approval |
| `SiteBuildRuns.TwoPressesTwoEmails` | packages/core/src/site-builds/notify-client.ts:139-184 | two presses that both read before either claims send two emails on one approval, from any state that allows one |
| `SiteBuildRuns.OneStageAtATime` | apps/worker/src/jobs/site-build-run.ts:47-171 | when ticks and people wait for each other, each entry of the audit log follows the one before by one stage, a failure or a press |
| `SiteBuildRuns.CancelledBuildComesBack` | packages/core/src/site-builds/site-builds.ts:107-125 | a cancel while a tick holds the build is followed by the next stage |
| `SiteBuildRuns.StaleWriteExactly` | apps/worker/src/jobs/site-build-run.ts:91-166 | a job's write keeps the log stepwise exactly when the row is still at the stage that was read, or, for a failure, at one a build can fail from |
| `SiteBuildRuns.OverlapGoesBack` | packages/core/src/queue/queues.ts:240 | from an empty table, two overlapping ticks that read one build send it from uploading back to provisioning |
| `AdapterGuard.SelectPlatforms` | packages/integrations/src/adapter-guard.ts:420-442 | the loop's two lists are the platforms asked for and the complete ones, and the missing keys are exactly the unset keys of the former |
| `AdapterGuard.ShownIsFaithful` | packages/integrations/src/adapter-guard.ts:438-441 | joined lists of plain names are equal only when the lists are, and never read as a mock or as unbuildable |
| `AdapterGuard.JoinedVerdict` | packages/integrations/src/adapter-guard.ts:420-442 | asked and built differ exactly when a platform asked for is incomplete |
| `AdapterGuard.VerdictsAgree` | packages/integrations/src/adapter-guard.ts:181-750 | for each adapter the comparison of strings refuses exactly what is unbuildable, half-configured or misnamed, or one of the three that must be real and is not |
| `AdapterGuard.ProductionAdapterIssues` | packages/integrations/src/adapter-guard.ts:708-750 | one issue for each refused adapter, in order, and none for another |
| `AdapterGuard.NoIssuesExactly` | packages/integrations/src/adapter-guard.ts:675-750 | a process boots exactly when it is not in production, or nothing is unbuildable and, without `ALLOW_MOCK_ADAPTERS`, nothing is astray and email, payments and uptime are real |
| `AdapterGuard.WarnedExactly` | packages/integrations/src/adapter-guard.ts:763-773 | in production an adapter is warned about exactly when nothing of it is real and it can be built, so none is on a mock whole and unnamed |
| `AdapterGuard.RefusalSaysWhich` | packages/integrations/src/adapter-guard.ts:713-747 | the four messages mean what they say: cannot be built, nothing real of what was asked for, part of it real, or a mock nobody asked to replace |
| `AdapterGuard.BlankIsUnset` | packages/integrations/src/adapter-guard.ts:350-374 | a variable left empty, or but for four of them given white space only, is refused exactly when leaving it out would have been |
| `AdapterGuard.SpaceIsAHost` | packages/integrations/src/adapter-guard.ts:331-348 | the four are no such thing: without a host the mailer cannot be built, with one space for a host it can |
| `AdapterGuard.AdsNameIsHeard` | packages/integrations/src/adapter-guard.ts:405-442 | in production a value of `ADS_ADAPTER` adds a refusal exactly when it names a platform that is not complete |
| `AdapterGuard.UnknownGeneratorIsRefused` | packages/integrations/src/adapter-guard.ts:610-747 | in production without the opt-out a value of `IMAGEGEN_ADAPTER` that is no generator is refused, as a fall back to the mock |
| `NotificationTone.HasToken` | apps/web/src/lib/notification-kind.ts:115-125 | the search ends, and is true exactly when the token's words run contiguously through the event's |
| `NotificationTone.OccurrenceIsWordRun` | apps/web/src/lib/notification-kind.ts:108-125 | a substring with boundaries either side is a run of whole words |
| `NotificationTone.RunsCompose` | apps/web/src/lib/notification-kind.ts:115-125 | a token inside a found token is found |
| `NotificationTone.OneWordToken` | apps/web/src/lib/notification-kind.ts:108-114 | a one-word token is found as a whole word only |
| `NotificationTone.ToneOf` | apps/web/src/lib/notification-kind.ts:127-133 | the first of the three lists with a token in the event decides, and no list leaves it plain information |
| `NotificationTone.EventOfKind` | apps/web/src/lib/notification-kind.ts:100-103 | the event is all that follows the first dot, other dots included |
| `NotificationTone.NoDotNoEvent` | apps/web/src/lib/notification-kind.ts:100-103 | a kind names an event only if it has a dot |
| `NotificationTone.MoreWordsNeverSoften` | apps/web/src/lib/notification-kind.ts:127-133 | words added before or after an event never lower its severity |
| `NavMatch.ActiveHref` | apps/web/src/components/app-nav.tsx:19-29 | the nested loops return the longest matching href, or nothing when none matches |
| `NavMatch.MatchesBySegments` | apps/web/src/components/app-nav.tsx:24-25 | an href matches exactly when its segments begin those of the path, and `/` only itself |
| `NavMatch.FindIsLongest` | apps/web/src/lib/help-routes.ts:18-24 | the first match of the sorted table is a longest match |
| `NavMatch.QueryAndSlashesAreIgnored` | apps/web/src/lib/help-routes.ts:20-24 | no query, and no slashes at the end of the path before it, change the screen |
| `NavMatch.AgreeOnPathnames` | apps/web/src/lib/help-routes.ts:18-24 | on any qualifying pathname and any table without awkward hrefs the two searches agree, or the path comes back without its trailing slashes |
| `NavMatch.AgreeExactly` | apps/web/src/lib/help-routes.ts:18-24 | a table is one they agree on everywhere if and only if it has no empty href and none ending in a slash that is not all slashes |
| `VatRate.RecoversEveryRate` | apps/web/src/components/invoice-document.tsx:45-48 | every rate charged to the nearest penny is recovered if and only if the subtotal is at least ten pounds; below it some rate of at most 100% is not |
| `VatRate.OnePennyShort` | apps/web/src/components/invoice-document.tsx:45-48 | 999 pence at 50% is charged 500 and printed as 50.1% |
| `VatRate.ChargedYetZero` | apps/web/src/components/invoice-document.tsx:75-95 | VAT is shown beside a rate of 0% exactly without a positive subtotal or with a charge below half a unit of it |
| `VatRate.DocumentsAgreeToATenth` | packages/core/src/billing/vat-rate.ts:48-51 | the rates of the two documents for one invoice are within half a tenth of a percent |
| `PushKey.UrlBase64ToUint8Array` | apps/web/src/lib/push.ts:40-50 | accepts exactly letters of either alphabet, in a number whole bytes can make, with no more `=` than they need; returns their bytes; each refusal has its own cause |
| `PushKey.Decodes` | apps/web/src/lib/push.ts:43-46 | once padded text looks like base64, `atob` takes it exactly when it is readable, and gives the key's bytes |
| `PushKey.EncodedIsRead` | apps/web/src/lib/push.ts:40-50 | every non-empty byte string is read back from its unpadded URL-safe encoding |
| `PushKey.EveryKeyRoundTrips` | apps/web/src/lib/push.ts:33-50 | and from every spelling of it, in either alphabet, with white space around it and any of the padding |
| `PushKey.SixesOfBytes` | apps/web/src/lib/push.ts:46 | groups of six come back from their bytes exactly when the bits past the last byte are zero |
| `PushKey.ReadIsSpelled` | apps/web/src/lib/push.ts:40-50 | a key that is read is an encoding of its bytes exactly when no loose bits are set |
| `PushKey.LettersAreTheAlphabet` | apps/web/src/lib/push.ts:43-45 | the letters are those of table 2 of RFC 4648, in order |
| `PushKey.TestVectors` | apps/web/src/lib/push.ts:40-50 | the encoding agrees with the first test vectors of section 10 of RFC 4648 |

## Left out

- The owner's bell on `none` and `manual` payments carries no once-only claim: it is not stamped, and the model shows it repeats.
- The URL a losing run returns from the payment step: only the stamped and announced session is claimed.
- The contents of documents, emails, alerts, notes and log lines, and every date format: only whether they were written.
- What the database does when a single statement throws, but for the audit after a recorded send, the sweep's sends and marker writes, and the notices and emails of a site build: elsewhere a statement that throws is a crash before it, which is modelled for the follow-on, the seed, the sends and the site builds.
- Interleavings inside one tick over many messages: a tick is one method over the whole table, and what may happen between its steps is proved on one message (`SweepRepairs`, `AnnouncedOnceButFor`), messages being independent but for the queue's keys.
- The alert that a message failed for good, and what an email provider does with a message it has taken when the record of it is never written.
- A client deleted while its follow-on runs: the job's runs take the proposal's client as acceptance left it.
- `clientAddress`, and the process-local sharing of a limiter between servers.
- `new URL`, port numbers and VAPID subjects: the address tests start from a bare host, and the guard takes the platform's judgements as parameters.
- The guard's messages and `describeAdapters`, which only print the resolutions; and the keys the worker's own environment schema drops before the guard sees them.
- Password hashing; the seed's packages, clients and demo rows.
- The registration line and label texts of `vatPresentation`.
- What the approvals half of the proposal sweep does, but for its throwing; and the expiring and nudging sweeps.
- How a site build's provider steps work inside, the metering key, and the timestamps of a stage.
- `startSiteBuild`'s one build per domain: a start is modelled as inserting a new row or finding the one there.
- The icons, categories and relative times of a notification, and the labels of help pages.
- Floating point: rates are exact quotients, where the code divides doubles before it rounds.
- `Buffer.from` in place of `atob`, for platforms without it; characters outside the basic plane, which no key survives in either reading.
