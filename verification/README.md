# Verified models of the template's protocols

Five pieces of the rendered application are small protocols with strong claims in their docstrings.
This project models them in Dafny and proves what holds of them, for every input, every run and every
interleaving; where a claim is false of the code, it gives the run that shows it and the exact
condition under which it is true.

| module | models |
|---|---|
| `Http` | bytes, headers and latin-1 text |
| `TokenBucket` | the Lua token bucket, against a limiter that remembers every hit |
| `IdempotencyStore` | the transactions on `idempotency_keys`, and the store as a class |
| `IdempotencyProtocol` | requests, handlers, crashes, the purge and the clock, interleaved |
| `IdempotencyMiddleware` | buffering, fingerprint, response capture, and a whole call |
| `Rating`, `Metering` | invoice lines, the usage log, and concurrent closes of a period |
| `Ledger` | wallet, top-ups and charges: atomic, and statement by statement |
| `Sessions`, `SessionInterleaving` | refresh-token families: atomic, and statement by statement |
| `Outbox`, `OutboxRelay`, `OutboxRuns` | the relay's drain, many relays with crashes, and particular runs |

Three shapes recur. A function on values says what one transaction does; a class runs it in place and
is proved equal to it; a step system interleaves it. `Run`, `IsRun` and `Steps` are sequences of
states, each following from the one before by some enabled step.

The hypotheses, each an explicit `requires`:

- `IdempotencyProtocol.Timely`: no live owner outlasts its own `expires_at`. `complete` and `release`
  look a row up by (scope, key) only, so without it both promises fail (`LateOwnerBreaksBothPromises`);
  `SecondOwnerIffLate` says exactly when single execution fails. Replay fidelity turns on less: on a
  final answer finding a row with another request hash (`OwnHashKeepsReplaysFaithful`,
  `StrayReplayIffOtherHash`).
- `Ledger.ProperTopUps`: top-ups are positive, as the schema demands. Their keys may be anything; only
  that an entry under an invoice's key is its debit needs them to stay out of the `invoice:` namespace
  (`KeyIsDebitIffNotUsurped`; `ForeignKeyBlocksForEver` shows what happens otherwise).
- New tokens, family ids and successors are fresh, and `limit`, `window_seconds`, `max_attempts` and the
  TTL do not change during a run.

Where the code and its documentation disagree, the code is modelled:

- "`limit` requests per window" is a rate, not a bound: up to twice as many pass in one window.
- "The handler exactly once" and "replayed verbatim" need the hypothesis above.
- Top-ups are documented as idempotent per key: keys are unique over all organizations, so one
  organization's key silently cancels another's top-up (`SharedKeyCancelsTopUp`).
- A charge is debited once, but a second charger with a stale open object can mark a paid invoice
  uncollectible (`DebitedMeansPaidIff`); charges of one invoice that do not overlap never do.
- One caller's key is documented never to collide with another's: it can, when two
  send one value in different headers, or one sends as its credential `ip:` and the host of a caller
  that sends none (`CallersCanCollide`).
- The request fingerprint is ambiguous for requests with a newline in their path or body, which another
  split of the same text shares.
- An ingest that commits after a close, stamped before the period's end, is in no invoice
  (`LateIngestIsNeverBilled`).
- Revoking a family misses each successor that a rotation commits after the UPDATE began
  (`SuccessorSurvivesLogout`).
- "Re-running never double-publishes" holds of `published_at`; jobs can repeat, up to `max_attempts`
  times without crashes and once more per crash, and both bounds are met.

## Model

| member | source | states |
|---|---|---|
| TokenBucket.ArgsFor | template/src/app/{% if include_ratelimit %}ratelimit{% endif %}/limiter.py:92-107 | For every limit and window of at least 1, the arguments passed to the script make the bucket hold `limit`, refill exactly `limit` in one window, and live for two windows, so that an idle key is full before it may vanish. |
| TokenBucket.LevelIsTightestSlack | template/src/app/{% if include_ratelimit %}ratelimit{% endif %}/limiter.py:35-48 | The one number stored per key equals the minimum, over all intervals that end in the current hit, of that interval's budget minus its admissions. |
| TokenBucket.ScriptIsSlidingLog | template/src/app/{% if include_ratelimit %}ratelimit{% endif %}/limiter.py:29-51 | For every sequence of hits on any clock, forwards or backwards, the constant-state script gives the verdicts of a limiter that remembers every hit: admit hit n iff every interval ending in n stays within limit + rate * forward clock movement. |
| TokenBucket.AdmissionsWithinBudget | template/src/app/{% if include_ratelimit %}ratelimit{% endif %}/limiter.py:42-47 | Between any two hits no more are admitted than the bucket size plus the refill in between. |
| TokenBucket.AtMostTwiceTheLimitPerWindow | template/src/app/{% if include_ratelimit %}ratelimit{% endif %}/limiter.py:92-108 | Any stretch of at most one window admits at most twice the limit. |
| TokenBucket.TwiceTheLimitIsReached | template/src/app/{% if include_ratelimit %}ratelimit{% endif %}/limiter.py:92-108 | Every limit and window has a schedule of hits that gets exactly twice the limit through in one window, so `limit` per window is not a bound. |
| TokenBucket.NeverMoreThanMost | template/src/app/{% if include_ratelimit %}ratelimit{% endif %}/limiter.py:92-108 | A stretch of any length d admits at most limit + floor(limit * d / window). |
| TokenBucket.MostIsReached | template/src/app/{% if include_ratelimit %}ratelimit{% endif %}/limiter.py:92-108 | And for every limit, window and d >= 0 some schedule over exactly d seconds gets that many admitted. |
| TokenBucket.NoCompliantScheduleAdmitsMore | template/src/app/{% if include_ratelimit %}ratelimit{% endif %}/limiter.py:42-47 | The bucket is not stricter than needed: no other choice of admissions that respects every interval's budget admits more of the same hits. |
| TokenBucket.ExpiryIsInvisible | template/src/app/{% if include_ratelimit %}ratelimit{% endif %}/limiter.py:34-49 | A key dropped at any moment after its time to live gives the same verdicts on every later hit as a bucket kept for ever, unless the clock is read behind the deletion. |
| TokenBucket.ClockSteppingBackShowsExpiry | template/src/app/{% if include_ratelimit %}ratelimit{% endif %}/limiter.py:34-49 | Without that clock condition it is false: three events on which the two differ. |
| TokenBucket.DeletionIsInvisibleIffFull | template/src/app/{% if include_ratelimit %}ratelimit{% endif %}/limiter.py:34-49 | The exact condition: a vanished key and a kept one agree on every run of hits from an instant on iff the kept bucket is full at that instant. |
| TokenBucket.RunScript | template/src/app/{% if include_ratelimit %}ratelimit{% endif %}/limiter.py:34-50 | The script's sequence of assignments computes the verdict and the bucket that the laws above are about. |
| TokenBucket.RedisKey.Hit | template/src/app/{% if include_ratelimit %}ratelimit{% endif %}/limiter.py:92-108 | In any interleaving of hits and expiries on a key, each hit is allowed iff the log of all hits ever made on it allows it. |
| TokenBucket.RedisKey.Vanish | template/src/app/{% if include_ratelimit %}ratelimit{% endif %}/limiter.py:49 | Redis dropping the key forgets the bucket, and not what the next verdicts will be. |
| IdempotencyStore.HeadersSurviveStorage | template/src/app/{% if include_idempotency %}idempotency{% endif %}/store.py:149-152 | Any header list, stored as latin-1 text and read back, is the list without the excluded headers, byte for byte and in order. |
| IdempotencyStore.KeptPreservesOrder | template/src/app/{% if include_idempotency %}idempotency{% endif %}/store.py:31-43 | Filtering works header by header: order is kept, exactly the excluded names go, in any letter case. |
| IdempotencyStore.NeverReplayed | template/src/app/{% if include_idempotency %}idempotency{% endif %}/store.py:31-43 | A header is left out of a replay iff its name is one of the nine listed names in some letter case. |
| IdempotencyStore.CookiesAreDroppedLocationIsKept | template/src/app/{% if include_idempotency %}idempotency{% endif %}/store.py:29-43 | `Set-Cookie` and `SET-COOKIE` never come back; `location` and `ETag` do. |
| IdempotencyStore.AnsweredIsCached | template/src/app/{% if include_idempotency %}idempotency{% endif %}/store.py:148-194 | What `complete` stores is what a later `claim` replays: same status, body and kept headers. |
| IdempotencyStore.OwnedIffNoCurrentRow | template/src/app/{% if include_idempotency %}idempotency{% endif %}/store.py:102-163 | A claim is granted iff no unexpired row holds the key, so no key stays wedged past its expiry. |
| IdempotencyStore.ClaimLastsItsTtl | template/src/app/{% if include_idempotency %}idempotency{% endif %}/store.py:106-145 | A granted claim keeps every other claim of its key out until exactly `ttl` after its clock reading. |
| IdempotencyStore.DuplicateIsTold | template/src/app/{% if include_idempotency %}idempotency{% endif %}/store.py:146-163 | While a row is current: another hash is a mismatch whether or not the first request has answered, the same hash waits before the answer and gets it after; the row stays. |
| IdempotencyStore.ReleaseSparesAnswers | template/src/app/{% if include_idempotency %}idempotency{% endif %}/store.py:196-208 | A release, however late, never takes a stored answer away from the next retry, and frees a key that has none. |
| IdempotencyStore.PurgesAreInvisible | template/src/app/{% if include_idempotency %}idempotency{% endif %}/store.py:210-222 | Expired rows and absent rows are bisimilar: a run of claims, completes, releases, clock ticks and purges has the claim outcomes of the run without its purges. |
| IdempotencyStore.PurgeSchedulesDoNotMatter | template/src/app/{% if include_idempotency %}idempotency{% endif %}/store.py:210-222 | Two runs that differ only in when they purge give every claim the same outcome. |
| IdempotencyStore.SqlIdempotencyStore.TryInsert | template/src/app/{% if include_idempotency %}idempotency{% endif %}/store.py:108-123 | The INSERT wins iff there is no row at all, expired or not, and a lost INSERT changes nothing. |
| IdempotencyStore.SqlIdempotencyStore.InspectLocked | template/src/app/{% if include_idempotency %}idempotency{% endif %}/store.py:126-163 | The locked second look: busy when the row has gone, a reclaim that clears the old answer when it has expired, else mismatch, replay or busy, in that order. |
| IdempotencyStore.SqlIdempotencyStore.Claim | template/src/app/{% if include_idempotency %}idempotency{% endif %}/store.py:102-163 | Both transactions together: owned iff no current row, and the whole table afterwards. |
| IdempotencyStore.SqlIdempotencyStore.Complete | template/src/app/{% if include_idempotency %}idempotency{% endif %}/store.py:165-194 | Whatever row is found under the key, it replays the response from now on; every other row and its own expiry and hash stay. |
| IdempotencyStore.SqlIdempotencyStore.Release | template/src/app/{% if include_idempotency %}idempotency{% endif %}/store.py:196-208 | Only an in-progress row is dropped. |
| IdempotencyStore.SqlIdempotencyStore.PurgeExpired | template/src/app/{% if include_idempotency %}idempotency{% endif %}/store.py:210-222 | Afterwards exactly the rows with `expires_at` in the future are left, and the number removed is reported. |
| IdempotencyProtocol.StepKeepsInv | template/src/app/{% if include_idempotency %}idempotency{% endif %}/store.py:102-222 | Every step of every request (stale clock reading, INSERT, locked look, handler end, complete or release, crash), the purge and the clock keep the invariant, as long as no live owner outlasts its `expires_at`. |
| IdempotencyProtocol.RunsKeepInv | template/src/app/{% if include_idempotency %}idempotency{% endif %}/store.py:102-222 | So the invariant holds in every state of every such run. |
| IdempotencyProtocol.SingleExecution | template/src/app/{% if include_idempotency %}idempotency{% endif %}/middleware.py:83-102 | In every interleaving, at most one live owner per (scope, key), standing on its own in-progress row with its own hash; and a second handler run began only after the first had released its claim or its claim had expired. |
| IdempotencyProtocol.ReplayFidelity | template/src/app/{% if include_idempotency %}idempotency{% endif %}/middleware.py:69-73 | Every replay carries status, body and kept headers that an earlier handler run streamed for the same key and the same request hash, and that run's status was below 500. |
| IdempotencyProtocol.OwnerAlone | template/src/app/{% if include_idempotency %}idempotency{% endif %}/store.py:137-145 | While an owner is timely, every other run of its key has released or is past its expiry. |
| IdempotencyProtocol.LookKeepsInv | template/src/app/{% if include_idempotency %}idempotency{% endif %}/store.py:126-145 | The locked look decides on the clock reading taken before the INSERT, however old it is by then, and still reclaims only from runs that have released or are past their expiry by the real clock. |
| IdempotencyProtocol.GrantKeepsSerial | template/src/app/{% if include_idempotency %}idempotency{% endif %}/store.py:137-145 | Granting a key without a current row puts the new run after every earlier run of it: each has released or is past its expiry. |
| IdempotencyProtocol.SettleKeepsHeld | template/src/app/{% if include_idempotency %}idempotency{% endif %}/store.py:181-207 | A timely owner that completes or releases by (scope, key) alone finds its own row and no other run's. |
| IdempotencyProtocol.CrashKeepsInv | template/src/app/{% if include_idempotency %}idempotency{% endif %}/middleware.py:83-102 | An owner that crashes leaves its in-progress row behind until the expiry, and breaks nothing else. |
| IdempotencyProtocol.RunsKeepLinked | template/src/app/{% if include_idempotency %}idempotency{% endif %}/middleware.py:83-102 | In every run, with owners as late as they like, live owners and live handler runs are matched one to one, and only statuses below 500 are ever cached. |
| IdempotencyProtocol.CompletionIsTrueIffRowIsOwn | template/src/app/{% if include_idempotency %}idempotency{% endif %}/store.py:181-194 | In every run, with owners as late as they like, storing a final answer leaves the row as its own run would have left it iff the row found under the key has that run's hash and expiry. |
| IdempotencyProtocol.GrantedIffNoCurrentRun | template/src/app/{% if include_idempotency %}idempotency{% endif %}/store.py:102-163 | After any run whose owners were timely so far, the next claim of a key is granted iff every earlier run of it has released or is past its expiry. |
| IdempotencyProtocol.RunsKeepLiveIsLast | template/src/app/{% if include_idempotency %}idempotency{% endif %}/store.py:137-145 | While owners are timely, no run of a key begins after a live one. |
| IdempotencyProtocol.SecondOwnerIffLate | template/src/app/{% if include_idempotency %}idempotency{% endif %}/store.py:137-145 | The exact condition for single execution: after any run that was timely so far, the next claim puts a second owner beside a live one iff the clock has reached the live one's expires_at. |
| IdempotencyProtocol.OwnHashKeepsReplaysFaithful | template/src/app/{% if include_idempotency %}idempotency{% endif %}/store.py:146-194 | Replay fidelity without the hypothesis: in every run, late owners included, in which each final answer finds no row or a row of its own request hash, every replay is the answer of a run with its key and hash. |
| IdempotencyProtocol.StrayReplayIffOtherHash | template/src/app/{% if include_idempotency %}idempotency{% endif %}/store.py:146-194 | The exact condition: in every run, when a final answer finds an unexpired row, the next claim with that row's hash is given this answer, and it is the answer to that request iff the row had the hash of the run that gave it. |
| IdempotencyProtocol.SameHashReclaimStaysFaithful | template/src/app/{% if include_idempotency %}idempotency{% endif %}/store.py:137-194 | A run in which a late answer lands in a row that a retry of the same request had reclaimed: no run left that row, and its replay is faithful. |
| IdempotencyProtocol.LateOwnerBreaksBothPromises | template/src/app/{% if include_idempotency %}idempotency{% endif %}/store.py:181-194 | A run in which an owner outlasts its claim: two live owners, and then a replay of one request's answer to a request with another hash. |
| IdempotencyMiddleware.BufferBody | template/src/app/{% if include_idempotency %}idempotency{% endif %}/middleware.py:128-145 | For every chunking, what was taken plus what is left is the original stream; the verdict depends on the whole body's length alone; and a request under the cap is taken exactly up to the end of its body. |
| IdempotencyMiddleware.TwoPartsAreBuffered | template/src/app/{% if include_idempotency %}idempotency{% endif %}/middleware.py:131-145 | A body in two parts is buffered as their concatenation iff both together do not exceed the cap; a disconnect ends the body where it is. |
| IdempotencyMiddleware.Replayer.Receive | template/src/app/{% if include_idempotency %}idempotency{% endif %}/middleware.py:148-157 | Yields the buffered messages in order, each once, then empty bodies. |
| IdempotencyMiddleware.ChainReplayer.Receive | template/src/app/{% if include_idempotency %}idempotency{% endif %}/middleware.py:160-169 | Yields the buffered messages and then the live stream: nothing lost, nothing twice. |
| IdempotencyMiddleware.FingerprintIsInjective | template/src/app/{% if include_idempotency %}idempotency{% endif %}/middleware.py:185-192 | Equal digest inputs mean the same method, path and body, when neither path holds a newline. |
| IdempotencyMiddleware.NewlineInPathCollides | template/src/app/{% if include_idempotency %}idempotency{% endif %}/middleware.py:185-192 | Every request whose path holds a newline shares its digest input with a request for another path. |
| IdempotencyMiddleware.CollidesIffNewline | template/src/app/{% if include_idempotency %}idempotency{% endif %}/middleware.py:185-192 | A request shares its digest input with some other request iff its path or its body holds a newline. |
| IdempotencyMiddleware.ResponseCapture.Send | template/src/app/{% if include_idempotency %}idempotency{% endif %}/middleware.py:105-125 | The client gets each message unchanged and in order; status and headers are those of the latest start; the body is the whole concatenation exactly as long as that fits under the cap, and once over it stays over. |
| IdempotencyMiddleware.LatestStartCounts | template/src/app/{% if include_idempotency %}idempotency{% endif %}/middleware.py:111-119 | Status and headers captured are those of the last start message, whatever was sent before and after it. |
| IdempotencyMiddleware.NoStartIsAFailure | template/src/app/{% if include_idempotency %}idempotency{% endif %}/middleware.py:111-119 | A handler that never starts a response counts as a 500. |
| IdempotencyMiddleware.BodiesConcatenate | template/src/app/{% if include_idempotency %}idempotency{% endif %}/middleware.py:120-124 | The captured body of two runs of messages is the two bodies one after the other. |
| IdempotencyMiddleware.IdempotencyMiddleware.Call | template/src/app/{% if include_idempotency %}idempotency{% endif %}/middleware.py:47-102 | One whole call: what the client receives, the table, how many times the handler ran, and whether its exception goes on to the server, over every branch (no key, over the cap, owned, replay, 409, 422, a handler that raises). |
| IdempotencyMiddleware.IdempotencyMiddleware.RunOwned | template/src/app/{% if include_idempotency %}idempotency{% endif %}/middleware.py:83-102 | The owner's branch: the handler gets the whole buffered request, its messages pass through, and the claim is completed iff the answer is final, otherwise released. |
| IdempotencyMiddleware.RetryReplays | template/src/app/{% if include_idempotency %}idempotency{% endif %}/middleware.py:47-102 | From any table: once a key is free a call runs the handler, and a retry of the same request within the TTL, chunked in any way, runs nothing and gets that run's status, body, kept headers and the one marker header. |
| IdempotencyMiddleware.TwoChunkAnswerIsReplayed | template/src/app/{% if include_idempotency %}idempotency{% endif %}/middleware.py:69-73 | A handler answers with a status below 500, headers h and chunks b1 and b2 that fit: a retry within the TTL gets that status, h without the excluded headers plus the marker, and b1 + b2. |
| IdempotencyMiddleware.UnfitAnswerIsRetried | template/src/app/{% if include_idempotency %}idempotency{% endif %}/middleware.py:87-94 | A status of 500 or more, chunks that do not fit, or an exception: the retry runs its own handler. |
| IdempotencyMiddleware.DuplicatesAreRefused | template/src/app/{% if include_idempotency %}idempotency{% endif %}/middleware.py:74-81 | While a claim is unanswered and current, the same request gets 409 and another one 422; neither runs anything nor changes the table. |
| IdempotencyMiddleware.UnkeyedPassThrough | template/src/app/{% if include_idempotency %}idempotency{% endif %}/middleware.py:48-61 | Any other method, no key header, or a body over the cap: the handler runs once on the stream as it came, and the store is left alone. |
| IdempotencyMiddleware.KeyedBy | template/src/app/{% if include_idempotency %}idempotency{% endif %}/middleware.py:48-52 | A request is keyed by its first `idempotency-key` header if it is a POST, PUT, PATCH or DELETE, and by nothing else. |
| IdempotencyMiddleware.MarkerIs | template/src/app/{% if include_idempotency %}idempotency{% endif %}/middleware.py:206 | The marker is `idempotent-replayed: true`. |
| IdempotencyMiddleware.FailureIsRetried | template/src/app/{% if include_idempotency %}idempotency{% endif %}/middleware.py:87-94 | An exception, a 5xx or an over-large answer leaves the key as if it had never been used. |
| IdempotencyMiddleware.OtherRequestIsRefused | template/src/app/{% if include_idempotency %}idempotency{% endif %}/middleware.py:79-81 | The same key with another method, path or body gets 422, runs nothing and changes nothing, while the first answer is current and no path holds a newline. |
| IdempotencyMiddleware.OtherKeysUntouched | template/src/app/{% if include_idempotency %}idempotency{% endif %}/middleware.py:63-67 | A call affects no row but the one under its own credential text and key. |
| IdempotencyMiddleware.SameNamespaceIff | template/src/app/{% if include_idempotency %}idempotency{% endif %}/middleware.py:172-182 | Two requests share a key namespace iff they present the same value in whichever header, or present none and share a host, or one presents as its credential the text that stands for the host of the other. |
| IdempotencyMiddleware.CredentialOrder | template/src/app/{% if include_idempotency %}idempotency{% endif %}/middleware.py:178-181 | Authorization before API key before host; an empty Authorization header counts as none. |
| IdempotencyMiddleware.CallersCanCollide | template/src/app/{% if include_idempotency %}idempotency{% endif %}/middleware.py:172-182 | For every host H and every value: an Authorization header `ip:H` shares the namespace of a caller from H that sends none, and one value in the two headers shares one. |
| Rating.Rate | template/src/app/{% if include_metering %}metering{% endif %}/rating.py:28-72 | A known plan is rated on its own card, an unknown one on the `free` card, and neither gives no lines. The lines are the base first, then overages in strictly rising meter order with positive quantities; no chargeable meter is missing; and they add up to the closed form. |
| Rating.RateAgainst | template/src/app/{% if include_metering %}metering{% endif %}/rating.py:45-72 | The same, as the loop's invariant: after each meter the lines are right for the meters so far. |
| Rating.Sorted | template/src/app/{% if include_metering %}metering{% endif %}/rating.py:57 | The meters in strict code point order, each exactly once. |
| Rating.BelowIsCodePointOrder | template/src/app/{% if include_metering %}metering{% endif %}/rating.py:57 | The order of meters is that of the first differing character, prefixes first. |
| Rating.SumSplits | template/src/app/{% if include_metering %}metering{% endif %}/rating.py:75-77 | A sum over meters does not depend on the order in which they are taken. |
| Rating.NothingUsedCostsBase | template/src/app/{% if include_metering %}metering{% endif %}/rating.py:45-61 | Without usage a card costs its base. |
| Rating.OneMoreUnit | template/src/app/{% if include_metering %}metering{% endif %}/rating.py:57-71 | One more unit of a meter costs its overage price iff the quota is used up; a meter off the card costs nothing. |
| Rating.TotalIsMonotone | template/src/app/{% if include_metering %}metering{% endif %}/rating.py:57-71 | More usage of any meters never costs less. |
| Rating.OverageIsSuperadditive | template/src/app/{% if include_metering %}metering{% endif %}/rating.py:57-71 | Two parts rated apart never cost more overage than rated together: each part gets the quota. |
| Rating.ExtraUsageIsBounded | template/src/app/{% if include_metering %}metering{% endif %}/rating.py:57-71 | Extra usage adds at most its unit price. |
| Metering.CallsAreKnown | template/src/app/{% if include_metering %}metering{% endif %}/service.py:52-67 | The log knows an (org, key) iff some call carried it. |
| Metering.StoredIffPairIsNew | template/src/app/{% if include_metering %}metering{% endif %}/service.py:44-66 | An event is stored iff no stored one has both its organization and its key, so two organizations may use one key. |
| Metering.RetriesCountOnce | template/src/app/{% if include_metering %}metering{% endif %}/service.py:34-67 | Retries put in anywhere, with whatever meter and quantity, leave the log as it is without them. |
| Metering.AdjacentPeriodsAdd | template/src/app/{% if include_metering %}metering{% endif %}/service.py:69-82 | Usage over [a, c) is the per-meter sum of [a, b) and [b, c). |
| Metering.EventCountsOnce | template/src/app/{% if include_metering %}metering{% endif %}/service.py:73-82 | One more event adds its quantity to its meter for its own organization if its time is in [a, b), and changes no other usage. |
| Metering.UsageIsOwn | template/src/app/{% if include_metering %}metering{% endif %}/service.py:73-82 | An organization's usage is that of its own events alone. |
| Metering.BillIsOwn | template/src/app/{% if include_metering %}metering{% endif %}/service.py:94-105 | Two logs that agree on an organization's own events bill it the same. |
| Metering.PeriodsCountOnce | template/src/app/{% if include_metering %}metering{% endif %}/service.py:69-82 | Over any number of consecutive periods each event counts in exactly one. |
| Metering.SplittingAPeriodNeverCostsMore | template/src/app/{% if include_metering %}metering{% endif %}/service.py:84-105 | Closing [a, b) and [b, c) charges at most the overage of closing [a, c). |
| Metering.ClosedUsageStaysRightIff | template/src/app/{% if include_metering %}metering{% endif %}/service.py:94-107 | The usage that a close read stays the period's usage iff no event with a positive quantity is later stored with a time inside that period. |
| Metering.LateIngestIsNeverBilled | template/src/app/{% if include_metering %}metering{% endif %}/service.py:94-107 | For every positive quantity and time inside the period: a run in which the ingest commits after the close, the invoice stays at zero, and the rating of the period's usage is that quantity. |
| Metering.StepKeepsInv | template/src/app/{% if include_metering %}metering{% endif %}/service.py:84-124 | Ingests, readers, commits and crashes of any number of closers keep one invoice per (org, start), rated on usage that was read from the log, and never change an invoice. |
| Metering.ClosesConverge | template/src/app/{% if include_metering %}metering{% endif %}/service.py:106-124 | Any two callers that ever get an invoice for one (org, start) get the same one, still stored, and its total is the rating of the usage its creator read. |
| Metering.SqlMeteringService.RecordUsage | template/src/app/{% if include_metering %}metering{% endif %}/service.py:34-67 | False iff the (org, key) is known, an error iff the organization is not, and otherwise one more event; the log keeps each key once. |
| Metering.SqlMeteringService.InvoicePeriod | template/src/app/{% if include_metering %}metering{% endif %}/service.py:84-124 | A serial close adds exactly one invoice, totalled by the closed form, or returns the existing one and adds none; an unknown organization is an error. |
| Ledger.ChargeKeepsBooks | template/src/app/{% if include_metering %}metering{% endif %}/service.py:126-174 | A charge on any view of the invoice, stale or not, keeps: balance = sum of entries >= 0, each key once, every debit keyed and sized by its invoice, paid implies debited. |
| Ledger.CreditKeepsBooks | template/src/app/{% if include_metering %}metering{% endif %}/service.py:176-208 | A top-up of a positive amount, under any key, keeps all of that. |
| Ledger.ChargeDecides | template/src/app/{% if include_metering %}metering{% endif %}/service.py:126-174 | An open invoice whose key no top-up took: paid at once when it is for nothing; paid, with its total off the balance and its entry under `invoice:<id>`, when the balance covers it; otherwise uncollectible with no money moved. No other wallet or invoice changes. |
| Ledger.TopUpCredits | template/src/app/{% if include_metering %}metering{% endif %}/service.py:186-206 | A top-up under a new key credits its organization and nobody else. |
| Ledger.EntryCounts | template/src/app/{% if include_metering %}metering{% endif %}/service.py:156-163 | What one more entry adds to the sum, to the top-ups and to the debited totals of an organization. |
| Ledger.CreditsAreBalancePlusDebits | template/src/app/{% if include_metering %}metering{% endif %}/service.py:159-174 | Conservation: applied top-ups are what is left plus the totals of the debited invoices. |
| Ledger.RetriedChargeMovesNoMoney | template/src/app/{% if include_metering %}metering{% endif %}/service.py:165-173 | Charging again with the same view, open or not, changes no balance and adds no entry. |
| Ledger.SettledInvoiceStays | template/src/app/{% if include_metering %}metering{% endif %}/service.py:128-129 | No serial operation touches a settled invoice or its debit, and a charge of it changes nothing at all. |
| Ledger.CreditedIffKeyIsNew | template/src/app/{% if include_metering %}metering{% endif %}/service.py:196-206 | A top-up is credited iff its key is in no entry of any organization. |
| Ledger.SharedKeyCancelsTopUp | template/src/app/{% if include_metering %}metering{% endif %}/service.py:187-200 | Once one organization used a key, a top-up of another one under it changes nothing, its balance included. |
| Ledger.ForeignKeyBlocksInvoice | template/src/app/{% if include_metering %}metering{% endif %}/service.py:153-173 | Once a top-up took the key of an open invoice, a charge of it that the wallet covers changes nothing and leaves it open. |
| Ledger.ForeignKeyBlocksForEver | template/src/app/{% if include_metering %}metering{% endif %}/service.py:153-173 | After a top-up took the key of an unpaid invoice, no further issues, charges (on any view), late refusals or top-ups ever get that invoice paid or debited. |
| Ledger.ChargeKeepsDebitedMeansPaidIff | template/src/app/{% if include_metering %}metering{% endif %}/service.py:128-150 | A charge keeps `debited implies paid` iff it is not a stale open view, refused for want of balance, of an invoice that was already debited. |
| Ledger.RefusalKeepsDebitedMeansPaidIff | template/src/app/{% if include_metering %}metering{% endif %}/service.py:146-150 | A refusal that commits late keeps it iff the invoice has no debit by then. |
| Ledger.FreshChargeKeepsDebitedMeansPaid | template/src/app/{% if include_metering %}metering{% endif %}/service.py:126-174 | A charge that reads the fresh status keeps it. |
| Ledger.SerialHistoriesPayExactlyTheDebited | template/src/app/{% if include_metering %}metering{% endif %}/service.py:126-208 | Over any history of issues, top-ups and charges that read the fresh status, an invoice with a total is paid iff it has its debit entry, whatever keys the top-ups use. |
| Ledger.SettledInvoicesAreFinal | template/src/app/{% if include_metering %}metering{% endif %}/service.py:128-129 | Over any serial history, an invoice that is paid or uncollectible stays as it is, with or without its debit. |
| Ledger.SerialChargesPayExactlyTheDebited | template/src/app/{% if include_metering %}metering{% endif %}/service.py:126-208 | The same in every interleaving at statement level in which no two charges of one invoice overlap, whatever top-ups, other charges and crashes run beside them. |
| Ledger.SettledInvoicesAreFinalInRuns | template/src/app/{% if include_metering %}metering{% endif %}/service.py:128-129 | The same over every interleaving in which no two charges of one invoice overlap. |
| Ledger.CommitsAreAtomic | template/src/app/{% if include_metering %}metering{% endif %}/service.py:126-208 | Each commit in the statement-level system, under row locks, reserved keys and stale views, is exactly one atomic operation on the database of that moment. |
| Ledger.StepKeepsLocks | template/src/app/{% if include_metering %}metering{% endif %}/service.py:136-206 | Every statement keeps: one holder per wallet row and per key in flight, and whoever holds a wallet has computed its new balance from the committed one. |
| Ledger.RunsAreSerializable | template/src/app/{% if include_metering %}metering{% endif %}/service.py:126-208 | Every interleaving leaves the database that its own commits, with their own amounts and views, leave as atomic operations in the order of committing. |
| Ledger.RequestsCommitOnce | template/src/app/{% if include_metering %}metering{% endif %}/service.py:126-208 | A request never changes its invoice, view, amount or key, and is over once it has committed, so each of its commits in that history is its only one. |
| Ledger.RunsKeepBooks | template/src/app/{% if include_metering %}metering{% endif %}/service.py:126-208 | The books hold in every committed state of every run. |
| Ledger.LedgerIsConserved | template/src/app/{% if include_metering %}metering{% endif %}/service.py:126-208 | In every such state each balance is non-negative, equals the sum of its entries, and applied top-ups = balance + debited totals. |
| Ledger.DebitedAtMostOnce | template/src/app/{% if include_metering %}metering{% endif %}/service.py:151-173 | In every such state an invoice has at most one entry, its delta is minus the total; a paid invoice with a total has it; and the entry under its key is that debit iff no top-up took the key. |
| Ledger.KeyIsDebitIffNotUsurped | template/src/app/{% if include_metering %}metering{% endif %}/service.py:153-163 | An entry under an invoice's key is that invoice's debit or a top-up that took the key, never both; all entries under it are the debit iff no top-up took it. |
| Ledger.KeysApartAreNotUsurped | template/src/app/{% if include_metering %}metering{% endif %}/service.py:187-195 | No top-up ever takes an invoice's key while top-up keys stay out of the `invoice:` namespace, which nothing in the API demands. |
| Ledger.DebitedMeansPaidIff | template/src/app/{% if include_metering %}metering{% endif %}/service.py:126-174 | Over every run, with stale views and any interleaving: every debited invoice is marked paid in every state iff no refusal commits on an invoice that has its debit. |
| Ledger.StaleRefusalHidesAPaidInvoice | template/src/app/{% if include_metering %}metering{% endif %}/service.py:146-150 | A run of two chargers and one top-up after which a debited invoice is uncollectible. |
| Ledger.PrepaidWallets.ChargeInvoice | template/src/app/{% if include_metering %}metering{% endif %}/service.py:126-174 | The whole database after a charge, the status that the caller sees, and the books kept. |
| Ledger.PrepaidWallets.TopUp | template/src/app/{% if include_metering %}metering{% endif %}/service.py:176-208 | The whole database after a top-up, the balance raised iff the key was new, and the books kept. |
| Sessions.OneUnspentToken | template/src/app/{% if include_users or include_tenancy or include_rbac or include_api_keys or include_billing or include_webhooks or include_admin %}users{% endif %}/sessions.py:37-115 | In every run of atomic operations from an empty table, a family has one user and never two unspent tokens. |
| Sessions.SuccessionKeepsChain | template/src/app/{% if include_users or include_tenancy or include_rbac or include_api_keys or include_billing or include_webhooks or include_admin %}users{% endif %}/sessions.py:76-93 | A rotation extends the family's chain by one link, of the same user, after its only unspent token. |
| Sessions.OpKeepsSound | template/src/app/{% if include_users or include_tenancy or include_rbac or include_api_keys or include_billing or include_webhooks or include_admin %}users{% endif %}/sessions.py:37-115 | Every atomic operation keeps families chains of one user, revoked as a whole or not at all. |
| Sessions.RunsKeepSound | template/src/app/{% if include_users or include_tenancy or include_rbac or include_api_keys or include_billing or include_webhooks or include_admin %}users{% endif %}/sessions.py:37-115 | So does every run of them. |
| Sessions.DeadFamilyStaysDead | template/src/app/{% if include_users or include_tenancy or include_rbac or include_api_keys or include_billing or include_webhooks or include_admin %}users{% endif %}/sessions.py:58-115 | Over any run a revoked family gains no token, and each of its tokens is refused: expired or reused. |
| Sessions.EndingKillsFamily | template/src/app/{% if include_users or include_tenancy or include_rbac or include_api_keys or include_billing or include_webhooks or include_admin %}users{% endif %}/sessions.py:88-115 | Logout, logout everywhere and replaying an unexpired spent token each kill the family. |
| Sessions.ReplayKillsSuccessor | template/src/app/{% if include_users or include_tenancy or include_rbac or include_api_keys or include_billing or include_webhooks or include_admin %}users{% endif %}/sessions.py:58-93 | A token rotates iff it is known, unexpired, unspent and unrevoked; presenting it again before it expires kills the successor too. |
| Sessions.FreshLoginRotates | template/src/app/{% if include_users or include_tenancy or include_rbac or include_api_keys or include_billing or include_webhooks or include_admin %}users{% endif %}/sessions.py:37-55 | Whatever was revoked before, a new login's token rotates for its full lifetime and is expired from then on. |
| Sessions.SuccessorRotates | template/src/app/{% if include_users or include_tenancy or include_rbac or include_api_keys or include_billing or include_webhooks or include_admin %}users{% endif %}/sessions.py:92-93 | So does every successor: presented later it rotates, for the same user, iff its own lifetime since the rotation is not over. |
| Sessions.SessionInUseGoesOn | template/src/app/{% if include_users or include_tenancy or include_rbac or include_api_keys or include_billing or include_webhooks or include_admin %}users{% endif %}/sessions.py:58-93 | Any number of refreshes, each within a lifetime of the one before, are all granted, to one user. |
| Sessions.OthersAreSpared | template/src/app/{% if include_users or include_tenancy or include_rbac or include_api_keys or include_billing or include_webhooks or include_admin %}users{% endif %}/sessions.py:68-71 | Unknown and expired tokens change nothing; rotating, replaying and logging out leave every other family as it is, logging out everywhere every other user. |
| Sessions.RefreshTokens.Issue | template/src/app/{% if include_users or include_tenancy or include_rbac or include_api_keys or include_billing or include_webhooks or include_admin %}users{% endif %}/sessions.py:37-55 | A login starts a new chain and leaves every other family alone. |
| Sessions.RefreshTokens.Rotate | template/src/app/{% if include_users or include_tenancy or include_rbac or include_api_keys or include_billing or include_webhooks or include_admin %}users{% endif %}/sessions.py:58-93 | The outcome and the whole table, chains kept, and a reuse leaves a dead family. |
| Sessions.RefreshTokens.RevokeFamilyOf | template/src/app/{% if include_users or include_tenancy or include_rbac or include_api_keys or include_billing or include_webhooks or include_admin %}users{% endif %}/sessions.py:96-108 | The presented token's family is dead afterwards; an unknown token changes nothing. |
| Sessions.RefreshTokens.RevokeAllForUser | template/src/app/{% if include_users or include_tenancy or include_rbac or include_api_keys or include_billing or include_webhooks or include_admin %}users{% endif %}/sessions.py:111-115 | Every family of the user is dead afterwards, and no other token changes. |
| SessionInterleaving.StepsKeepInv | template/src/app/{% if include_users or include_tenancy or include_rbac or include_api_keys or include_billing or include_webhooks or include_admin %}users{% endif %}/sessions.py:58-115 | At statement level, with row locks, waits, aborts and uncommitted successors, every step keeps one holder per row, new successors apart, and families chains. |
| SessionInterleaving.SingleWinner | template/src/app/{% if include_users or include_tenancy or include_rbac or include_api_keys or include_billing or include_webhooks or include_admin %}users{% endif %}/sessions.py:72-93 | In every interleaving a token has one winning rotation; a token under rotation is unspent, unrevoked and the only unspent one of its family; so live tokens plus rotations under way never exceed one. |
| SessionInterleaving.SuccessorLivesALifetime | template/src/app/{% if include_users or include_tenancy or include_rbac or include_api_keys or include_billing or include_webhooks or include_admin %}users{% endif %}/sessions.py:45-54 | However long the commit waits, a successor expires exactly a lifetime after it was minted, and is committed unspent, unrevoked, in its token's family. |
| SessionInterleaving.LookGoesByExpiry | template/src/app/{% if include_users or include_tenancy or include_rbac or include_api_keys or include_billing or include_webhooks or include_admin %}users{% endif %}/sessions.py:65-71 | A stored token is accepted for rotation until its expiry and refused from then on. |
| SessionInterleaving.DeadStaysDead | template/src/app/{% if include_users or include_tenancy or include_rbac or include_api_keys or include_billing or include_webhooks or include_admin %}users{% endif %}/sessions.py:72-108 | Whatever is interleaved, a family that is wholly revoked stays so and gains no token. |
| SessionInterleaving.FamilyGrowsByCommits | template/src/app/{% if include_users or include_tenancy or include_rbac or include_api_keys or include_billing or include_webhooks or include_admin %}users{% endif %}/sessions.py:76-93 | A family gets a new token by the commit of one of its own rotations and in no other way, and it loses none. |
| SessionInterleaving.RevocationKillsIff | template/src/app/{% if include_users or include_tenancy or include_rbac or include_api_keys or include_billing or include_webhooks or include_admin %}users{% endif %}/sessions.py:105-108 | Over any stretch from the moment an UPDATE saw the rows of a family to its end, the family ends dead iff every successor that one of its rotations committed in between is revoked by then. |
| SessionInterleaving.LogoutKillsIff | template/src/app/{% if include_users or include_tenancy or include_rbac or include_api_keys or include_billing or include_webhooks or include_admin %}users{% endif %}/sessions.py:96-108 | So a logout, with any steps between its beginning and its end, ends the session iff each successor committed in between is revoked. |
| SessionInterleaving.RevocationsSeeTheFamily | template/src/app/{% if include_users or include_tenancy or include_rbac or include_api_keys or include_billing or include_webhooks or include_admin %}users{% endif %}/sessions.py:88-115 | Logout, logout everywhere and the revocation after a replay each begin on all rows of the family they are to end. |
| SessionInterleaving.UndisturbedLogoutKills | template/src/app/{% if include_users or include_tenancy or include_rbac or include_api_keys or include_billing or include_webhooks or include_admin %}users{% endif %}/sessions.py:96-108 | With no row of the family locked when it begins, a logout can finish at once, and the family is then dead. |
| SessionInterleaving.SuccessorSurvivesLogout | template/src/app/{% if include_users or include_tenancy or include_rbac or include_api_keys or include_billing or include_webhooks or include_admin %}users{% endif %}/sessions.py:105-108 | A run in which a logout waits for a rotation, revokes the spent token and misses the live successor. |
| Outbox.TargetsAreTheSubscribed | template/src/app/{% if include_webhooks %}webhooks{% endif %}/outbox.py:95-108 | An endpoint is sent to iff the event is a webhook event and the endpoint is active, of the event's own organization, and lists its type. |
| Outbox.Accepted | template/src/app/{% if include_webhooks %}webhooks{% endif %}/outbox.py:106-116 | Enqueues stop at the first refused call and not before. |
| Outbox.PassDrains | template/src/app/{% if include_webhooks %}webhooks{% endif %}/outbox.py:66-81 | A drain gives each selected event one round (published, or one attempt more with an error noted, and dead iff that reaches the limit), and leaves every other event and field alone. |
| Outbox.PassDelivers | template/src/app/{% if include_webhooks %}webhooks{% endif %}/outbox.py:86-116 | Whatever the queue answers, an event that a drain publishes has a new job for each of its endpoints, and no new job goes anywhere else. |
| Outbox.JobsGoToSubscribers | template/src/app/{% if include_webhooks %}webhooks{% endif %}/outbox.py:95-116 | Every new job of a drain goes to an active endpoint of the event's own organization that lists its type, and a published event has one for each of them. |
| Outbox.PassCounts | template/src/app/{% if include_webhooks %}webhooks{% endif %}/outbox.py:65-83 | The number a drain returns is the number of events it published. |
| Outbox.DrainsAreDrains | template/src/app/{% if include_webhooks %}webhooks{% endif %}/outbox.py:40-83 | Both hold of `drain_outbox` with its own selection. |
| Outbox.MeasureFallsUpTo | template/src/app/{% if include_webhooks %}webhooks{% endif %}/outbox.py:66-81 | Row by row, the rounds left fall by one for each selected event. |
| Outbox.DrainLowersMeasure | template/src/app/{% if include_webhooks %}webhooks{% endif %}/outbox.py:40-83 | The sum over pending events of (max_attempts - attempts) falls by at least min(limit, pending) in every committed drain. |
| Outbox.DrainLowersPrefix | template/src/app/{% if include_webhooks %}webhooks{% endif %}/outbox.py:53-82 | Oldest first: each drain takes a round off the first n events until they are settled, whatever was dispatched after them. |
| Outbox.EverythingSettles | template/src/app/{% if include_webhooks %}webhooks{% endif %}/outbox.py:26-83 | n events are all published or dead within n * max_attempts drains, whichever enqueues fail and however many events are dispatched in between. |
| Outbox.OneBatchSettles | template/src/app/{% if include_webhooks %}webhooks{% endif %}/outbox.py:26-83 | And within max_attempts drains when one drain takes n, again with any dispatches in between. |
| Outbox.Relay.Dispatch | template/src/app/{% if include_webhooks %}webhooks{% endif %}/dispatch.py:24-54 | One pending event is added iff its (source, event_id) is new; nothing else changes. |
| Outbox.Relay.FanOut | template/src/app/{% if include_webhooks %}webhooks{% endif %}/outbox.py:86-116 | The loop over the endpoints enqueues, in order, the longest accepted prefix of the targets and reports the first refused one. |
| Outbox.Relay.Process | template/src/app/{% if include_webhooks %}webhooks{% endif %}/outbox.py:66-81 | One turn of the relay's loop: event, queue and counter. |
| Outbox.Relay.DrainOutbox | template/src/app/{% if include_webhooks %}webhooks{% endif %}/outbox.py:40-83 | The whole drain: table, queue and the number published, for the oldest pending events up to the limit. |
| OutboxRelay.StepKeepsRows | template/src/app/{% if include_webhooks %}webhooks{% endif %}/outbox.py:40-116 | With any number of relays, one enqueue at a time, under SKIP LOCKED and crashes anywhere, every step keeps what is claimed of each row. |
| OutboxRelay.StepKeepsKeys | template/src/app/{% if include_webhooks %}webhooks{% endif %}/dispatch.py:34-54 | Producers that flush, commit or roll back in any order keep (source, event_id) unique. |
| OutboxRelay.RunsKeepInv | template/src/app/{% if include_webhooks %}webhooks{% endif %}/outbox.py:40-116 | Both hold in every state of every run. |
| OutboxRelay.PublishingPass | template/src/app/{% if include_webhooks %}webhooks{% endif %}/outbox.py:63-82 | A published row was published by one pass: it locked the row, read the endpoints, held the row until its commit, and that commit published it. |
| OutboxRelay.PublishedReachesEveryone | template/src/app/{% if include_webhooks %}webhooks{% endif %}/outbox.py:66-116 | At least once, crashes included: a published event has a job for every endpoint that was active and subscribed when the pass that published it read the endpoints. |
| OutboxRelay.JobsGoToSubscribers | template/src/app/{% if include_webhooks %}webhooks{% endif %}/outbox.py:95-116 | Every job of every run, crashes included, is for an endpoint of the event's own organization that was active and listed its type in a table the sending pass had read. |
| OutboxRelay.DuplicatesAreBounded | template/src/app/{% if include_webhooks %}webhooks{% endif %}/outbox.py:66-116 | An endpoint has at most attempts + 1 jobs for a published event and max_attempts for any, plus one per crashed pass; no event is both published and dead. |
| OutboxRelay.AtMostMaxWithoutCrashes | template/src/app/{% if include_webhooks %}webhooks{% endif %}/outbox.py:66-116 | Without crashes at most max_attempts, and attempts + 1 once published. |
| OutboxRelay.SettledIsFinal | template/src/app/{% if include_webhooks %}webhooks{% endif %}/outbox.py:53-82 | A published or dead event is never changed or sent again, by any relay. |
| OutboxRelay.StepLowersMeasure | template/src/app/{% if include_webhooks %}webhooks{% endif %}/outbox.py:66-82 | With any number of relays and crashes, no step adds to the rounds that the present events have left, and each commit takes one off for every row its relay holds. |
| OutboxRelay.SettledAfterMaxPasses | template/src/app/{% if include_webhooks %}webhooks{% endif %}/outbox.py:66-82 | In every run, a row has had exactly as many committed passes as rounds, never more than max_attempts, and after max_attempts of them it is published or dead; crashed passes count for nothing. |
| OutboxRelay.EventsAreDistinct | template/src/app/{% if include_webhooks %}webhooks{% endif %}/dispatch.py:34-54 | No two committed events share their (source, event_id). |
| OutboxRuns.DrainIsARun | template/src/app/{% if include_webhooks %}webhooks{% endif %}/outbox.py:40-83 | The sequential drain over the rows that SKIP LOCKED leaves, while other relays hold rows of theirs, is one crash-free run of this system, so all of this holds of it. |
| OutboxRuns.CrashesDuplicate | template/src/app/{% if include_webhooks %}webhooks{% endif %}/outbox.py:7-10 | The crash term is needed: for every n, a run with n crashes that enqueues n + 1 jobs for one endpoint. |
| OutboxRuns.RefusalsDuplicate | template/src/app/{% if include_webhooks %}webhooks{% endif %}/outbox.py:89-93 | The bound without crashes is met: for every max_attempts, a crash-free run gives one endpoint that many jobs for an event that is then dead, because a later endpoint was refused each time. |
| OutboxRuns.LatePublicationDuplicates | template/src/app/{% if include_webhooks %}webhooks{% endif %}/outbox.py:89-93 | And for every n below it, one that gives n + 1 jobs for an event published after n failed rounds. |

## Left out

- SQLAlchemy, Postgres and Redis themselves: they appear as row maps with unique keys, row locks, atomic scripts, commit and rollback. The SQLite branches without row locks are not modelled.
- Deadlocks, lock timeouts and the order in which waiters are served: a waiting statement is one that is not enabled yet.
- SHA-256, UUIDs and random tokens: hashes stand for their inputs, and new identifiers are fresh parameters.
- Floating point in the Lua script and Redis's whole-second expiry: arithmetic is exact.
- The limiter's fail-open path (no Redis, or an error), which admits without counting, and the failure counters beside it.
- Clocks that differ between hosts: the application clock is one, and monotone, in the idempotency, session and outbox systems.
- What can come between the unlocked read and the write of `complete`, and of `release`: each is one atomic step.
- A request stream that never ends its body: `BufferBody` requires an end, since the code waits for one.
- Interleaving inside one handler run: a handler is a function from what it receives to what it sends, and whether it then raises.
- The JSON escaping of the 409 and 422 bodies, whose texts need none, and non-HTTP scopes.
- Currencies, line descriptions, plan names on lines, `charged_at` and the stored copy of an invoice's lines: only the amounts are modelled.
- Deleting organizations, endpoints or users, which cascades to their rows.
- Splitting `event_types`, the event payload, `last_error`'s text and its truncation: an endpoint carries its list of types, and an event the endpoint that failed.
- The delivery worker behind the queue: signing, HTTP, its retries and the receiver's deduplication.
- Creation times that disagree with the order of committing: in `Outbox` rows are numbered oldest first, so an event that lands late with an earlier time is not modelled there; a relay of `OutboxRelay` may lock any pending rows, which includes the oldest.
- RBAC, entitlements, API keys, storage, e-mail, payments, agents, admin, observability, the egress guard, the routers and the template's own tooling: lookups, vendor wrappers or I/O.
