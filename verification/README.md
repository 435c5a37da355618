# SocialHub backend: verified core

This project models the parts of SocialHub's NestJS backend that hold real protocols, loops or
arithmetic, and proves what they promise. The database, Redis and the queues are state; each `findX`,
`updateMany`, `$transaction`, `INCR` or `queue.add` is one atomic step.

- **Publishing.** `PublishJobs` has the job row and every write to it. `PublishProtocol` is the whole
  protocol as a state machine: cron ticks with stale snapshots, user cancels, administrators' requeues and
  cancels, workers with retries, webhooks, all interleaved step by step. `PublishLedger` accounts for every
  queue entry and every post. `PublishRequeue` says exactly when a requeue can post twice, `PublishCancels`
  exactly when a cancel keeps a job from being posted. `PublishWorker` is one queue entry under retry.
  `Publishing` is the service as a class, over the rules in `PublishRules`. `PublishAgreement` ties its
  dispatch loop to the machine's tick. `Webhooks` handles platform events.
- **Authenticator codes.** `Base32` and `Totp`, with JavaScript's 32-bit operators on integers; `Numerals`
  and `Division` hold the arithmetic.
- **Allowances.** `Quota` is the rolling AI allowance, `RateLimit` the Redis counters of the organization
  guard and of the flood check, `CounterLifetimes` when they start over.
- **Credentials.** `Sessions` has the refresh tokens with every read and write apart, `SessionForks` what
  overlapping refreshes cost, `SessionResets` what a reset or a reuse ends, `AuthSessions` the service. `Links` and
  `RecoveryCodes` are used once. `SocialTokens` has refreshes against rotating providers,
  `SocialTokenSweeps` the service.
- **Seats.** `Seats` has invitations, acceptance, registration, role and plan changes.
- **Roll-ups.** `BestTimes`, `Analytics`, `Hashtags`, over `Sorting` and `Grouping`.

The classes' methods call `Await` where other requests may run, and every method ensures what `Await` restricts
others to. A ghost result (`at`, `first`, `second`, and `found` of a webhook delivery) is the state that a write
finds; what the method writes is stated of that state. With the ghost argument `quiet` nothing else runs.

## Where the code and its documentation differ

The model follows the code.

- `requeueJob` is documented never to re-run a published job. It reads the status and then writes without
  a guard, and a job may be mid-flight when it reads `processing`. `RequeueSafeIffClean` gives the exact
  condition, `UncleanIsReachable` a job that fails it.
- `cancelJob` is documented to refuse a published job, and `executePublish` not to run a cancelled one. The
  cancel writes without a guard, so a job that went out meanwhile is cancelled (`PublishedYetCancelled`);
  workers look for the row but not at its status, so a cancelled job is posted (`CancelledYetPosted`), exactly
  unless nothing could post it any more (`CancelStopsIffQuiet`).
- Retries are documented to end `published` or `failed`. A stored token that no longer decrypts, after a change
  of the encryption key, throws outside the guarded part, and after the last attempt the row stays
  `processing` (`EntryOutcome`, `UnreadableTokenSticks`).
- base32 decoding is documented to tolerate padding and white space. White space behind padding is not
  tolerated (`SpaceInsensitive`, `PaddedLineRejected`).
- `verifyTotp` is documented to return false for a malformed token rather than throw, and does. It throws for a
  well-formed one whose window reaches a negative counter or one that does not fit eight bytes
  (`AcceptsWithinWindow`, `ScanWindow`).
- The quota guard is said to overshoot by one. It overshoots by one less than the number of requests between
  guard and usage row (`OvershootBound`, `OvershootAttained`). The seat check of invitations, not documented to
  overshoot, does so in the same way (`WithinSeats`, `SeatsOversubscribed`).
- The flood check's key has no bucket, unlike the other counters: its window starts with a client's first
  request (`PassesPerLifetime`).
- `parseHashtags` tests its limit after adding a tag, so a limit below one returns one tag.
- A sweep leaves a due account whose platform has no adapter, or whose tokens do not decrypt, connected and
  due, and counts it as needing reconnection (`SweptAccounts`).
- Refresh tokens are documented to rotate, and a password reset to log other devices out. Rotation is not
  guarded: a refresh that overlaps another of the same token forks the session (`RefreshSafeIffAlone` of
  `SessionForks`), and one that overlaps a reset, or the full revocation promised on reuse, outlives it
  (`ResetCompleteIffQuiet`, `ReuseCompleteIffQuiet`).
- Refreshes of one social account are not guarded either: an overlap can mark a good account, or connect one
  with a dead token (`RefreshSafeIffAlone` of `SocialTokens`).

## Assumptions

Database, Redis and queue calls succeed; processes do not crash between steps; a clock never runs backwards and
all servers share it; rows are not deleted. The reads before a method's first write see one instant. Random
values (tokens, ids, codes) are distinct and hashes injective, so a stored token is known by its position or id.
HMAC-SHA1 is a function parameter. Decryption undoes encryption under the same key; under another it fails.
E-mail addresses are given in normalized form. The answers of platforms, token endpoints and providers are
arbitrary. Averages are exact rationals.

## Model

| member | source | states |
|---|---|---|
| PublishProtocol.StepFollows | backend/src/publishing/publishing.service.ts:614-783 | No step but creation sets `scheduled`, whoever takes it: a tick, a worker, a user, an administrator or a webhook; and none deletes a row or changes its target, account, platform, time or caption. |
| PublishProtocol.StepLegal | backend/src/publishing/publishing.service.ts:614-783 | Every step of every actor is legal from a sound state: it writes only what its read or guard entitles it to, and leaves running ticks and queue entries in a sound state. |
| PublishLedger.EntriesAccounted | backend/src/publishing/publishing.service.ts:614-689 | In every interleaving a scheduled job is claimed by a tick or withdrawn by its user at most once altogether, and entries made + entries still to be made + claims without a queue = (1 if immediate) + claims + requeues. |
| PublishLedger.NoDoublePost | backend/src/publishing/publishing.service.ts:621-651 | In every interleaving a job is posted at most 1 + (its requeues) times, in at most three adapter calls each; without a requeue, at most once. |
| PublishLedger.TicksAreSound | backend/src/publishing/publishing.service.ts:614-654 | No tick enqueues a job before its `scheduledAt`; the counts ticks report add up to the entries they made; when a tick is through, none of its snapshot is still scheduled. |
| PublishLedger.WithdrawnNeverPosted | backend/src/publishing/publishing.service.ts:760-783 | A job withdrawn by its user and never requeued stays cancelled and never has a queue entry. |
| PublishRequeue.RequeueSafeIffClean | backend/src/publishing/publishing.service.ts:656-689 | The documented promise that a published job is never run again holds of a requeue that passes the service's check if and only if the job is clean at that moment: never posted, no live entry, nothing about to be queued, not scheduled. |
| PublishRequeue.CleanRequeueIsSafe | backend/src/publishing/publishing.service.ts:661-689 | After the requeue of a clean job, every run without a further requeue of it posts it at most once. |
| PublishRequeue.UncleanRequeueCanDoublePost | backend/src/publishing/publishing.service.ts:661-689 | After the requeue of a job that is not clean there is a run, without a further requeue, that posts it twice. |
| PublishRequeue.UncleanIsReachable | backend/src/publishing/publishing.service.ts:661-689 | Such jobs occur: one published immediately, its entry waiting, passes the check of the service, and after its requeue can be posted twice. |
| PublishCancels.NoFurtherPostIffSettled | backend/src/publishing/publishing.service.ts:383-712 | In every reachable state a job comes to no further post, in any continuation without a requeue, iff no entry of it is live, no request or tick is about to add one, and no tick will. |
| PublishCancels.CancelStopsIffQuiet | backend/src/publishing/publishing.service.ts:691-707 | After the cancel of an administrator is written the job reads cancelled, and comes to no further post in any continuation without a requeue iff no entry of it was live and nothing was about to add one. |
| PublishCancels.CancelledYetPosted | backend/src/publishing/publishing.service.ts:398-402 | A reachable cancelled job that was never posted and is posted later, without a requeue. |
| PublishCancels.PublishedYetCancelled | backend/src/publishing/publishing.service.ts:691-707 | A reachable published job whose cancel, checked before it went out, is then written: it reads cancelled, its post is out. |
| PublishWorker.BetweenAttempts | backend/src/publishing/publishing.service.ts:442-448 | Between attempts that throw, the row reads `processing`, `attemptCount` is the number of attempts, and the adapter was called at most that often. |
| PublishWorker.EntryRun | backend/src/publishing/publishing.service.ts:391-533 | What the retries of one entry come to for any answers: attempts, calls, `attemptCount`, post id and final status, by the first attempt that does not throw. |
| PublishWorker.EntryOutcome | backend/src/publishing/publishing.service.ts:391-533 | The adapter is not called after a success; the row ends `published` iff a call succeeded, and `processing` iff the last allowed attempt dies of a token error that asks for no reconnect; otherwise `failed`. |
| PublishWorker.EntryOutcomeReadable | backend/src/publishing/publishing.service.ts:391-533 | Where no stored token fails to decrypt, the row ends `published` iff some call succeeded, and `failed` otherwise. |
| PublishWorker.UnreadableTokenSticks | backend/src/publishing/publishing.service.ts:455-475 | A stored token that does not decrypt on any attempt leaves the row `processing` for good, without one adapter call. |
| PublishWorker.AttemptRowIsUpdates | backend/src/publishing/publishing.service.ts:442-517 | The updates an attempt sends, applied in order, make the row the retry rule speaks about. |
| PublishWorker.AttemptIsFourSteps | backend/src/publishing/publishing.service.ts:391-533 | Undisturbed, the four worker steps of the interleaved protocol are one attempt. |
| PublishWorker.EntryInProtocol | backend/src/publishing/processors/base-publish.processor.ts:27-32 | Undisturbed, an entry of the interleaved protocol runs by the queue's retry rule, attempt for attempt. |
| PublishAgreement.TickAlone | backend/src/publishing/publishing.service.ts:614-654 | A tick of the interleaved protocol that runs alone leaves the rows, orders and count that `DispatchDueScheduledJobs` promises undisturbed. |
| PublishAgreement.CreationSteps | backend/src/publishing/publishing.service.ts:118-136 | In the interleaved protocol an immediate publish and a schedule store the rows the methods of the service store. |
| PublishAgreement.RequestsBegin | backend/src/publishing/publishing.service.ts:661-783 | A cancel, a requeue and an administrator's cancel get under way exactly where the check of the service lets them. |
| PublishAgreement.RequestSteps | backend/src/publishing/publishing.service.ts:661-783 | Their writes and orders, field by field, are those of the methods of the service: guarded for the user's cancel only. |
| PublishAgreement.RemovalStep | backend/src/webhooks/webhooks.service.ts:91-110 | A removal in the protocol fails exactly the published rows under that post id on that platform. |
| PublishRules.VariantRefusal | backend/src/publishing/publishing.service.ts:791-860 | A design may be published iff it and the account are the organization's, it is approved where approval is required, ready and rendered, and the account is connected and on its platform; otherwise the first check that fails names the refusal, and another organization's design is reported as not found. |
| PublishRules.CarouselRefusal | backend/src/publishing/publishing.service.ts:222-258 | A carousel may be published iff the account is the organization's and connected, and its platform takes carousels of that many items, one included; another organization's account is reported as not found. |
| Publishing.PublishingService.PublishNow | backend/src/publishing/publishing.service.ts:98-136 | Refused by the first failing check with nothing written; otherwise a queued row and one order with the request's caption. |
| Publishing.PublishingService.PublishCarouselNow | backend/src/publishing/publishing.service.ts:146-179 | The same for a carousel, which is stored first. |
| Publishing.PublishingService.Schedule | backend/src/publishing/publishing.service.ts:573-601 | A scheduled row and no order, unless the time has passed or a check fails. |
| Publishing.PublishingService.ScheduleCarousel | backend/src/publishing/publishing.service.ts:182-212 | The same for a carousel. |
| Publishing.PublishingService.DispatchDueScheduledJobs | backend/src/publishing/publishing.service.ts:614-654 | The jobs selected are those scheduled for `now` or earlier. Whatever runs between the steps: none of them stays scheduled; the result counts the orders placed, each with the stored caption for a different selected job that this tick claimed and that no other request ever claims. Undisturbed: exactly the selected rows change, to queued or, without a queue, to failed, and exactly their orders are placed. |
| Publishing.PublishingService.ClaimScheduled | backend/src/publishing/publishing.service.ts:623-629 | The guarded claim, on the state its update finds: the row is claimed exactly if it is scheduled there, and was then never claimed before. |
| PublishRules.DecidingIsSound | backend/src/publishing/publishing.service.ts:606-612 | A claim or withdrawal of a scheduled row keeps, for every job, at most one claim or withdrawal ever; this is what the guard is for. |
| Publishing.PublishingService.Enqueue | backend/src/publishing/publishing.service.ts:631-650 | A claimed job gets one order on its platform's queue, or is failed where there is none. |
| Publishing.PublishingService.CancelScheduled | backend/src/publishing/publishing.service.ts:760-783 | Another organization's job is not found, one not scheduled is refused; otherwise, on the state the guarded update finds, the job is withdrawn exactly if it is still scheduled there. |
| Publishing.PublishingService.RequeueJob | backend/src/publishing/publishing.service.ts:661-689 | Refused when missing, published or without a queue at the check; otherwise the row the update finds is queued and the order placed, whatever became of the job since. |
| Publishing.PublishingService.CancelJob | backend/src/publishing/publishing.service.ts:695-707 | Refused when missing or published at the check; otherwise the row the update finds is cancelled, whatever became of it since. |
| Publishing.PublishingService.ExecutePublish | backend/src/publishing/publishing.service.ts:391-533 | With other requests running before each update, for any token and platform outcome: what goes out (nothing, or once, with the caption of the request if it has one, even an empty one, else the stored one, else none, the account and the stored image or ordered images), the updates that are sent, in order, how the attempt ends, and field by field what an undisturbed row reads then. A missing job is nothing to do. |
| Publishing.PublishingService.PublishVariant | backend/src/publishing/publishing.service.ts:455-532 | Token check, single post with the caption of the request, else of the design, else empty, and the closing update of a design. |
| Publishing.PublishingService.ExecuteCarouselPublish | backend/src/publishing/publishing.service.ts:266-380 | The same for a carousel, in a body of its own: one image goes out as an ordinary post, more as an album; the caption is the request's, else the carousel's, else empty. |
| Publishing.PublishingService.PublishAlbumOf | backend/src/publishing/publishing.service.ts:301-379 | Token check, one ordinary post for one image or an album of all in order, with the caption of the request, else of the carousel, else empty, and the closing update. |
| PublishRules.SameUpdates | backend/src/publishing/publishing.service.ts:260-533 | By the contracts of the two separately written bodies: an attempt at a design and one at a carousel with equal completeness, token, answer, try and limit send the same updates in order, make as many platform calls and end alike; undisturbed, rows that agreed in status, attempts, post id and error agree after. |
| Webhooks.WebhooksService.HandleMetaEvent | backend/src/webhooks/webhooks.service.ts:45-56 | With others in between, each change in turn acts on what its update finds, and `handled` counts those that found something. Undisturbed, for any nesting, order and repetition: exactly the published jobs of the platform that a removal names fail, exactly the accounts a revocation names are revoked, and `handled` counts the distinct changes with something to act on. |
| Webhooks.WebhooksService.HandleChange | backend/src/webhooks/webhooks.service.ts:58-88 | One change acts as its decoded action, and reports whether it had an effect. |
| Webhooks.WebhooksService.MarkPostRemoved | backend/src/webhooks/webhooks.service.ts:91-110 | Fails exactly the jobs that still read published under that post id on that platform. |
| Webhooks.WebhooksService.MarkAccountRevoked | backend/src/webhooks/webhooks.service.ts:113-129 | Revokes exactly the platform's accounts of that user that are not revoked yet. |
| Webhooks.RemovesPost | backend/src/webhooks/webhooks.service.ts:63-72 | A change removes a post iff its field and verb are among those of a removal and it names a post, by the first of the three keys that says anything. |
| Webhooks.RevokesUser | backend/src/webhooks/webhooks.service.ts:74-84 | A change revokes a user iff it is about permissions, its entry has an id, and verb or status says so. |
| Webhooks.ActionsMean | backend/src/webhooks/webhooks.service.ts:45-56 | The actions of a payload are those of all changes of all entries, each read with the id of its own entry. |
| Webhooks.AfterMeans | backend/src/webhooks/webhooks.service.ts:91-129 | Field by field, which rows a set of actions changes, and to what. |
| Webhooks.SecondDeliveryDoesNothing | backend/src/webhooks/webhooks.service.ts:26-37 | Delivering any of the same changes again changes nothing and handles nothing. |
| Webhooks.DeliveriesCommute | backend/src/webhooks/webhooks.service.ts:45-56 | Two deliveries in either order leave the state of one delivery of all their changes, and their counts add up to its count. |
| Base32.AlphabetIs | backend/src/common/crypto/base32.util.ts:11 | Letters and positions are those of the RFC 4648 alphabet. |
| Base32.Encode | backend/src/common/crypto/base32.util.ts:13-33 | With an accumulator that wraps at 32 bits, the output is one character per symbol, ceil(8n / 5) of them, of the one bit stream of the input, zero-filled to whole symbols (RFC 4648 section 6). |
| Base32.Decode | backend/src/common/crypto/base32.util.ts:35-56 | With the same accumulator, the output is the whole bytes of the symbols' bit stream, or the first character outside the alphabet. |
| Base32.ShiftIn | backend/src/common/crypto/base32.util.ts:19-47 | Shifting a group in appends its bits to the live low bits, whatever the 32-bit wrap loses above. |
| Base32.ReadTop | backend/src/common/crypto/base32.util.ts:22-50 | The unsigned shift and the mask read exactly the oldest live bits; the others stay live. |
| Base32.RoundTrip | backend/src/common/crypto/base32.util.ts:13-56 | Decoding the encoding of any bytes gives them back; the encoding has ceil(8n/5) characters of the alphabet. |
| Base32.ReencodesIffCanonical | backend/src/common/crypto/base32.util.ts:13-56 | Re-encoding decoded text reproduces it iff it is canonical: alphabet only, no superfluous symbol, zero fill bits (RFC 4648 section 3.5). |
| Base32.CaseInsensitive | backend/src/common/crypto/base32.util.ts:36 | Decoding does not depend on letter case. |
| Base32.PaddingInsensitive | backend/src/common/crypto/base32.util.ts:36 | Decoding does not depend on a run of `=` at the very end. |
| Base32.SpaceInsensitive | backend/src/common/crypto/base32.util.ts:36 | White space put into decodable text changes nothing iff it is not put behind padding; there it makes the text invalid. |
| Base32.SpaceBehindPadding | backend/src/common/crypto/base32.util.ts:36 | Every padded secret becomes invalid with white space behind its padding. |
| Base32.PaddedLineRejected | backend/src/common/crypto/base32.util.ts:36 | `MY======` decodes, and is rejected with a line break behind it. |
| Text.SpacesListed | backend/src/common/crypto/base32.util.ts:36 | The white space of regular expressions, character by character. |
| Totp.Truncated | backend/src/common/crypto/totp.util.ts:108-115 | The four bytes the low nibble points to, all inside the digest, make a non-negative number below 2^31 although JavaScript's shifts are signed (RFC 4226 section 5.3). |
| Totp.CounterBytes | backend/src/common/crypto/totp.util.ts:102-104 | The eight bytes that are hashed denote the counter. |
| Totp.CodeShape | backend/src/common/crypto/totp.util.ts:117 | A code has exactly `digits` decimal digits and denotes the truncated value modulo 10^digits. |
| Totp.ScanWindow | backend/src/common/crypto/totp.util.ts:76-80 | Accepts iff some counter of the window has the code and the window does not start below zero; otherwise throws iff the window leaves the counters an 8-byte buffer holds. |
| Totp.Verify | backend/src/common/crypto/totp.util.ts:55-81 | Only a token that is, without white space, exactly `digits` decimal digits and the code of a countable counter within `window` of the clock is accepted, for a secret that decodes; malformed tokens and secrets are rejected. Where the whole window is countable nothing throws, every such code is accepted and every other rejected; elsewhere it throws as `ScanWindow` says. |
| Totp.DriftBound | backend/src/common/crypto/totp.util.ts:43-75 | Clocks at most `window` steps apart have counters at most `window` apart, and clocks `window + 1` steps apart do not (RFC 6238 section 5.2). |
| Totp.AcceptsWithinWindow | backend/src/common/crypto/totp.util.ts:37-81 | Every code generated within `window` steps of the verifier's clock is accepted if the window does not start below zero, and makes the verifier throw if it does. |
| Quota.ResetAtExact | backend/src/ai/quota.guard.ts:118-143 | With no new rows, the window holds at least `limit` rows at every instant up to and including `resetAt`, and fewer at every later one, ties and `used > limit` included. |
| Quota.ResetAtSafe | backend/src/ai/quota.guard.ts:133-138 | If rows age out between count and query, the promised instant is still never too early. |
| Quota.GuardAnswers | backend/src/ai/quota.guard.ts:49-105 | Denied without user, organization or known plan; otherwise let through iff the rows of the last 30 days are fewer than the plan's 25, 250, 2000 or 25000. |
| Quota.PromiseKept | backend/src/ai/quota.guard.ts:49-105 | After a refusal with `resetAt`, and no generation in between, the guard lets every request behind that instant through; and, if no row aged out between its two reads, none before. |
| Quota.OldestRowTooEarly | backend/src/ai/quota.guard.ts:113-117 | Without the skip, a limit lowered below the usage would be promised a reset while still blocked. |
| Quota.OvershootBound | backend/src/ai/quota.guard.ts:82-89 | With at most k requests between guard and usage row, the window never holds more than limit + k - 1 rows, at any instant of any run; so sequential use never exceeds the limit. |
| Quota.OvershootAttained | backend/src/ai/ai-gateway.service.ts:172-175 | The bound is attained for every limit and every k. |
| RateLimit.PassesPerBucket | backend/src/common/guards/org-rate-limit.guard.ts:49-80 | In every interleaving of requests and delayed EXPIREs, exactly min(requests, limit) requests of an organization pass per bucket. |
| RateLimit.AliveInItsBucket | backend/src/common/guards/org-rate-limit.guard.ts:57-60 | A counter never expires before its own bucket ends. |
| RateLimit.OrgIntervalBound | backend/src/common/guards/org-rate-limit.guard.ts:49-80 | Any interval of one window's length admits at most twice the limit. |
| RateLimit.OrgIntervalAttained | backend/src/common/guards/org-rate-limit.guard.ts:51-71 | Twice the limit does pass within two milliseconds where two buckets meet. |
| RateLimit.NonInterference | backend/src/common/guards/org-rate-limit.guard.ts:20-34 | An organization's requests get the answers they would get if all other organizations were silent. |
| RateLimit.PassesPerLifetime | backend/src/auth/auth-throttle.service.ts:103-107 | For the flood check, whose key has no bucket: exactly min(requests, limit) pass per lifetime of the counter, and lifetimes start a window or more apart. |
| RateLimit.FloodIntervalBound | backend/src/auth/auth-throttle.service.ts:139-148 | Any interval of one window's length admits at most twice the allowance of a client's requests. |
| CounterLifetimes.LifetimeEnds | backend/src/auth/auth-throttle.service.ts:139-148 | In every run: once the EXPIRE of a counter's first hit is sent, no hit of that lifetime comes a window later or after. |
| CounterLifetimes.StartsOver | backend/src/auth/auth-throttle.service.ts:139-148 | So the next request from then on is counted one, and passes. |
| CounterLifetimes.FloodStartsOver | backend/src/auth/auth-throttle.service.ts:103-107 | A client refused by the flood check has its whole allowance again a window after the EXPIRE of its first request. |
| RateLimit.RateLimiter.CanActivate | backend/src/common/guards/org-rate-limit.guard.ts:44-81 | Requests without an organization pass uncounted; others are counted in the store as it is when they arrive, and pass by their place among the hits of the counter; a first hit sets the time to live in the store as that write finds it. |
| RateLimit.RateLimiter.Bump | backend/src/auth/auth-throttle.service.ts:139-148 | Counts at once: one more than a counter that has not run out, else one. On a first hit the time to live is set later, to a window from then, in the store as that write finds it. Undisturbed and at once, the two steps of the interleaved model. |
| RateLimit.RateLimiter.AssertNotFlooding | backend/src/auth/auth-throttle.service.ts:103-107 | The call passes iff it and the earlier ones of its scope and address on a counter that has not run out are within the allowance; it is counted in the store as it is when it arrives, and a new counter runs out a window after its time to live is set. |
| BestTimes.RankBestTimes | backend/src/ai/best-time-ranking.ts:30-59 | The best hours: each with the number of its posts and their engagement as average times number; higher averages first, then more posts, then the earlier hour of the week; an hour with posts is left out only for as many better ones as were asked for. It is a slice of one ranking of all hours. |
| BestTimes.RankingUnique | backend/src/ai/best-time-ranking.ts:30-59 | The ranking depends only on the multiset of posts. |
| BestTimes.HourOfTheWeek | backend/src/ai/best-time-ranking.ts:34-35 | The epoch is Thursday's first hour, and an hour later it is the next hour, of the next day at midnight. |
| BestTimes.WithinTheHour | backend/src/ai/best-time-ranking.ts:34-35 | All instants of an hour share day and hour, so the two rows determine them for every instant. |
| BestTimes.PrecedesTotal | backend/src/ai/best-time-ranking.ts:50-57 | The comparator is a strict total order on slots. |
| BestTimes.RankingConserves | backend/src/ai/best-time-ranking.ts:33-41 | Sample counts add up to the number of posts, the buckets' totals to all engagement. |
| BestTimes.SliceKeepsBest | backend/src/ai/best-time-ranking.ts:58 | Every slot that is dropped ranks below every slot kept: no higher average, and no more posts on the same one. |
| Analytics.AggregateOverview | backend/src/analytics/analytics-aggregation.ts:68-109 | All six totals, one breakdown for each platform with its own count and sums in name order, the top posts, by likes + comments + shares + clicks, best first and stable, the latest capture time. |
| Analytics.GetDetermines | backend/src/analytics/analytics-aggregation.ts:68-82 | Sums equal metric by metric are equal: no two metrics are mixed up and none is left out. |
| Analytics.ComparisonConserves | backend/src/analytics/analytics-aggregation.ts:73-82 | For each metric the platforms' sums add up to the total, and their post counts to the number of rows. |
| Analytics.TopPostsDominate | backend/src/analytics/analytics-aggregation.ts:87-97 | No dropped post scores above a kept one, and of equal scores the earlier rows are kept. |
| Hashtags.ParseHashtags | backend/src/ai/prompts/hashtags.prompt.ts:45-58 | The first distinct valid tags of the text, up to the limit (one tag if the limit is below one): each begins with `#`, has more behind it, consists of letters, digits, `#` and `_`, and is what cleaning leaves of a token; no two are the same up to letter case. |
| Hashtags.CleanKeeps | backend/src/ai/prompts/hashtags.prompt.ts:45-58 | Cleaning keeps, character by character, exactly letters, digits, `#` and `_`. |
| Hashtags.SplitNothing | backend/src/ai/prompts/hashtags.prompt.ts:45-58 | A text without white space is one token. |
| Hashtags.SplitBetween | backend/src/ai/prompts/hashtags.prompt.ts:45-58 | A run of white space, however long, separates the tokens before it from those behind it. |
| Hashtags.FoundAll | backend/src/ai/prompts/hashtags.prompt.ts:45-58 | Every token that cleaning makes a tag is found, up to letter case. |
| Hashtags.FirstsAreFirst | backend/src/ai/prompts/hashtags.prompt.ts:51-54 | The tags kept are, in order, exactly those at positions whose tag did not occur before, up to letter case. |
| Hashtags.FirstsCover | backend/src/ai/prompts/hashtags.prompt.ts:51-54 | No tag of the text is lost, up to letter case. |
| Hashtags.LimitsNest | backend/src/ai/prompts/hashtags.prompt.ts:55 | For limits 1 <= n <= m the result at n is a prefix of the result at m, of length min(n, distinct valid tags). |
| Hashtags.ParseJoined | backend/src/ai/prompts/hashtags.prompt.ts:45-58 | A result joined with spaces parses to itself at the same limit. |
| Sessions.PathsIffUnforked | backend/src/auth/auth.service.ts:170-231 | In every interleaving of reads, revocations and insertions, the tokens of every session form a path, live at most at its end, iff no token was replaced twice. |
| Sessions.RotationKeepsPathsIff | backend/src/auth/auth.service.ts:208-219 | The two writes of a rotation keep the paths iff the token is the last of its session; nothing in them checks that. |
| Sessions.ReplacementKeepsPathsIff | backend/src/auth/auth.service.ts:265-271 | The insertion keeps the paths iff the revoked token was not replaced before. |
| Sessions.RequestSteps | backend/src/auth/auth.service.ts:170-278 | The interleaved logins, lookups, revocations, insertions and logouts write what the methods of the service write. |
| SessionForks.RefreshSafeIffAlone | backend/src/auth/auth.service.ts:173-219 | A live token that is presented is replaced at most once, in every continuation in which it is not presented again, iff no other refresh of it is under way. |
| SessionForks.SequentialKeepsPaths | backend/src/auth/auth.service.ts:170-231 | Over every run in which refreshes of one token do not overlap, each session is a path, live at most at its end. |
| SessionForks.ExpiredNeverReplaced | backend/src/auth/auth.service.ts:194-196 | A live token presented after its expiry starts nothing: over every run that presents it only then it is not replaced, unless a refresh of it was already under way. |
| SessionForks.LiveAtMostSessions | backend/src/auth/auth.service.ts:170-278 | In every interleaving the live tokens of a user are at most the sessions opened plus the forks; without overlap, at most the sessions opened. |
| SessionForks.ReuseRevokesAll | backend/src/auth/auth.service.ts:182-192 | Presenting a revoked token, whatever revoked it, ends in a write that leaves its user without a live one. |
| SessionResets.DescendantIffStoredLate | backend/src/auth/account.service.ts:86-100 | After a reset, or the revocation that answers a reuse, a token descending from an earlier session is issued iff a refresh that read its token before stores the replacement after it. |
| SessionResets.RevocationEndsSessions | backend/src/auth/account.service.ts:86-100 | Unless that happens, every earlier token of the user, and every token of an earlier session, stays revoked, and presenting one starts no refresh. |
| SessionResets.ResetCompleteIffQuiet | backend/src/auth/account.service.ts:95-98 | A reset leaves the user no live token of an earlier session, in any continuation, iff no refresh of the user is under way when it runs. |
| SessionResets.ReuseCompleteIffQuiet | backend/src/auth/auth.service.ts:182-192 | A revoked token is presented and, whatever runs in between, answered by revoking all tokens of its user: none of an earlier session is live in any continuation iff no refresh of that user is under way when the revocation is written. |
| AuthSessions.AuthService.Refresh | backend/src/auth/auth.service.ts:170-220 | An unknown token, or a live one past its expiry, is refused with nothing written; any other live one is revoked and replaced, by a token of its user and session with a new time to live, on the states the two writes find; for a revoked one everything its user has is revoked. |
| AuthSessions.AuthService.LogIn | backend/src/auth/auth.service.ts:248-278 | A new session: one more live token, nothing else. |
| AuthSessions.AuthService.LogOut | backend/src/auth/auth.service.ts:222-231 | Revokes that token and nothing else; unknown or revoked tokens change nothing. |
| AuthSessions.AuthService.RevokeSessions | backend/src/auth/account.service.ts:95-98 | Leaves the user without a live token. |
| Links.RedeemedOnce | backend/src/auth/account.service.ts:107-165 | In every interleaving each link is redeemed at most once, and at most one link per user and kind is open. |
| Links.SupersededNeverRedeemed | backend/src/auth/account.service.ts:114-128 | Once a newer link of the user and kind is stored, no older one's redemption commits, even if its check has passed. |
| Links.IssueSteps | backend/src/auth/account.service.ts:107-131 | An interleaved issue stores one open link with its time to live and closes the older ones of its user and kind. |
| Links.CheckPasses | backend/src/auth/account.service.ts:139-150 | Exactly an open link of the kind asked for that has not expired passes the check. |
| Links.CommitCloses | backend/src/auth/account.service.ts:150-165 | A redemption that passed commits exactly if the link is still open, and closes it. |
| Links.AccountService.IssueToken | backend/src/auth/account.service.ts:107-131 | The new link is the only open one of its user and kind. |
| Links.AccountService.ConsumeToken | backend/src/auth/account.service.ts:139-165 | Unknown, closed, expired or wrong-kind links are refused with nothing written; otherwise, on the state the guarded update finds, the link is consumed and its owner returned exactly if it is still open there. |
| RecoveryCodes.CodesAddUp | backend/src/auth/mfa.service.ts:110-121 | In every interleaving with re-enrolment and removal each code is used at most once, and unused codes = 10 - uses since enrolment while enabled, none otherwise. |
| RecoveryCodes.SpellingIsNormalForm | backend/src/auth/mfa.service.ts:213-241 | Two typed codes match iff they are the same up to letter case, blanks and hyphens. |
| RecoveryCodes.NormalizeKeeps | backend/src/auth/mfa.service.ts:213-241 | Normalizing drops, character by character, white space and hyphens, and lowers letters. |
| RecoveryCodes.RequestSteps | backend/src/auth/mfa.service.ts:96-228 | The interleaved enrolments, removals, lookups and burns write what the methods of the service write. |
| RecoveryCodes.MfaService.VerifySecondFactor | backend/src/auth/mfa.service.ts:207-228 | A valid authenticator code burns nothing; otherwise an unused code of that spelling is found iff there is one, and burned, and the login let in, exactly if it is still unused in the state the guarded update finds. |
| RecoveryCodes.MfaService.Enable | backend/src/auth/mfa.service.ts:96-124 | Refused if enabled when read; otherwise, whatever the transaction finds, it leaves exactly ten unused codes in new rows. |
| Seats.OneOwnerAlways | backend/src/organizations/members/members.service.ts:37-71 | Over every run of registrations, invitations, acceptances, role and plan changes: each organization has exactly one owner, no invitation offers that role, no invitation is redeemed twice. |
| Seats.StepLoad | backend/src/organizations/invites/invites.service.ts:46-163 | Acceptance conserves members + pending; nothing adds to members + pending + invitations about to be stored but a creation that found a free seat. |
| Seats.WithinSeats | backend/src/billing/plan-limits.service.ts:56-68 | On a fixed or rising plan, with at most k creations between seat check and invitation, members + pending never exceed the seats by more than k - 1; one creation at a time never exceeds them. |
| Seats.SeatsOversubscribed | backend/src/organizations/invites/invites.service.ts:66-86 | k creations that pass the check together do exceed the seats by k - 1, and leave k open invitations for one address. |
| Seats.RequestSteps | backend/src/organizations/invites/invites.service.ts:46-163 | The interleaved registrations, plan changes, invitations, acceptances and role changes write what the methods of the service write. |
| Seats.Workspace.Register | backend/src/auth/auth.service.ts:41-77 | Organization and owner are created together, or the address has an account and nothing happens. |
| Seats.Workspace.Create | backend/src/organizations/invites/invites.service.ts:46-97 | Refused exactly for the owner role, a role above the inviter's own, a member, or with no free seat on the plan (2, 5, 20, unlimited), with nothing written; otherwise, on the states the two writes find, older open invitations of the address are closed and the invitation stored; undisturbed, the seats suffice. |
| Seats.Workspace.RevokeOne | backend/src/organizations/invites/invites.service.ts:107-118 | An invitation of the organization reads revoked, whatever it was when looked up or when written; others are not found. |
| Seats.Workspace.Accept | backend/src/organizations/invites/invites.service.ts:125-163 | Closed, unknown or expired invitations and taken addresses are refused at the check; otherwise invitation accepted and user created on its terms together, exactly if the invitation is still open and the address free in the state the transaction finds; it changes no organization's occupied seats. |
| Seats.Workspace.ChangeRole | backend/src/organizations/members/members.service.ts:37-71 | Refused exactly for one's own role, the owner role, a target that is missing, another organization's, its owner or above the actor, or a role above the actor's, by the member as read; otherwise only that role changes in the state the write finds, and no owner of any organization. |
| SocialTokens.StoredTokensStayCurrent | backend/src/social-accounts/social-token.service.ts:80-184 | With row read, provider call and write apart: over every run in which refreshes and reconnections of an account do not overlap, a connected account holds the token its provider honours whenever no refresh of it is under way. |
| SocialTokens.RefreshSafeIffAlone | backend/src/social-accounts/social-token.service.ts:104-147 | A refresh of an account that holds the honoured token ends, in every undisturbed continuation with willing providers, connected with the honoured token iff no other refresh of it is under way when it reads the row. |
| SocialTokens.RefreshConnectsIff | backend/src/social-accounts/social-token.service.ts:117-145 | A refresh the provider is willing to grant connects the account iff the row it read still holds the honoured token; then what it stores is what is honoured, and otherwise the good token stays and the account is marked. |
| SocialTokens.LateWriteCurrentIff | backend/src/social-accounts/social-token.service.ts:123-134 | The write of a grant stores the honoured token iff the provider still honours what that grant left it honouring; a later grant makes it put back a dead one. |
| SocialTokens.StatusForFailure | backend/src/social-accounts/social-token.service.ts:186-198 | A failure that reads as a revocation leaves the account revoked, another one expired if its token has run out, else in error; never connected. |
| SocialTokens.RequestSteps | backend/src/social-accounts/social-token.service.ts:80-147 | The interleaved reconnections, lookups, provider calls and marks write what the methods of the service write; a refresh begins only for a connected account due within a day. |
| SocialTokenSweeps.SweptAccounts | backend/src/social-accounts/social-token.service.ts:155-184 | A due account ends connected with the granted tokens or marked, except that one without an adapter, or whose tokens do not decrypt, stays connected and due; an honoured stored token stays one. |
| SocialTokenSweeps.SocialTokenService.CallAdapter | backend/src/social-accounts/social-token.service.ts:121-122 | A provider grants only the token it honours, a rotated token replaces it, and a failure changes nothing. |
| SocialTokenSweeps.SocialTokenService.RefreshAccount | backend/src/social-accounts/social-token.service.ts:104-147 | Without an adapter, or with tokens that do not decrypt, nothing changes; otherwise the refresh token, or where none is stored the access token, of the row as read is presented, and a grant is stored whole, keeping what it does not renew, or a failure marked, in the row as the write finds it. |
| SocialTokenSweeps.SocialTokenService.EnsureFreshAccessToken | backend/src/social-accounts/social-token.service.ts:80-91 | Refreshed exactly if connected and due; a token, a demand to reconnect, or, exactly where the stored tokens do not decrypt, an error that asks for no reconnect. |
| SocialTokenSweeps.SocialTokenService.RefreshDueAccounts | backend/src/social-accounts/social-token.service.ts:155-184 | Whatever runs in between: one refresh for each account selected as connected and due, by the row selected; due = refreshed + needsReconnect, refreshed being those that got a token. Undisturbed, every account ends as if treated alone, whatever the order. |

## Left out

- Base32.CaseInsensitive: ASCII letters only; JavaScript also maps some other letters to ASCII ones.
- Base32.Decode: those other letters are invalid characters here.
- RecoveryCodes.SpellingIsNormalForm: `toLowerCase` is taken on ASCII letters only; codes are issued in ASCII.
- RateLimit.PassesPerBucket: the clock is read in the instant of the INCR; requests that read it earlier are not modelled.
- Totp.ScanWindow: the timing of the comparison is not modelled.
- Publishing.PublishingService.ExecutePublish: the token refresh appears by its outcome; design, carousel and account are read in one instant; notifications and log lines are not modelled.
- Publishing.PublishingService.DispatchDueScheduledJobs: the set of queues is fixed for a run; a deployment that removes one is a new run.
- Order of entries within a queue, backoff delays and worker concurrency limits: the proofs hold for any order.
- Row deletion (`account-data.service.ts`), which depends on foreign keys of a schema that is not part of this model.
- Redis outages: the guards then let requests through.
- `recordLoginFailure`, `recordLoginSuccess` and the login lockout they feed: further uses of the same counter.
- The message patterns of `statusForFailure`: a failure reads as a revocation or it does not.
- Google and SAML sign-in, JWTs, passwords, e-mail text: foreign systems and wiring.
- Platform adapters, OpenAI, Stripe, Cloudinary: network clients, here arbitrary answers.
- Approval transitions, templates, media, comments, notifications, administration lists: storage with one-branch rules.
