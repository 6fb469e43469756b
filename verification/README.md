# Proofs about the Adhkar backend

A Dafny model of the parts of the backend that hold a protocol, a bound or a loop, and proofs of what those parts keep.
Each module models one component; `Prelude.dfy` and `Strings.dfy` hold the vocabulary they share. `OutboxOrder.dfy`,
`OutboxContent.dfy` and `AlertColumns.dfy` go on about the outbox and the alerts. `dafny verify dfyconfig.toml` checks
everything.

Conventions of the models:

- A table is a map from identifiers to rows, a Redis key with a TTL is a key with the instant it vanishes, a signed token
  is a value that has been signed before, and an answer of the database that the code does not determine (the order of
  rows, the choice among ties) is a parameter that must be *an* answer to the query.
- A component whose requests or workers interleave is a state machine over its steps (`Enabled`, `Apply`, `IsRun`), and the
  theorems are about every run. The classes beside it are the code's own loops and branches, each proved to take exactly
  those steps.
- Time is an integer in the finest unit that matters: milliseconds for the rate limiter (the resolution of Redis),
  microseconds for tokens and SAML assertions.

## What is proved, and where the code falls short

**Rate limiter.** A client is let through fewer than limit * (ceil(T / 60 s) + 1) times in any T milliseconds, over every
interleaving of INCR and EXPIRE and even when requests die between the two. The bound for a minute, 2 * limit - 1, is
reached. A request that dies between the two leaves a counter without a deadline, and nothing ever gives it one: the client
gets what is left of the limit and is then refused for ever, whatever the Retry-After header says. A counter is in that
state exactly when a request that started it has died so. For a minute after its EXPIRE a counter lets through what is left
of the limit and nothing more; each bound is also stated path by path, with the limits of the table.

**Credentials.** Requests are transactions whose writes interleave; an UPDATE of a session row waits for the transaction
that holds it. One refresh token is rotated at most once, each login or organization switch has at most one live session
descending from it, live sessions are logins plus switches minus the rows logouts revoked, and no token or key carries a
permission that no profile granted. An API key acts in the default organization its user has at the time, while its scope
comes from the organization of the token it began with: a profile of the former is certain to cover it exactly when the two
agree. An access token's jti never names a session row, so a switch of organization leaves the refresh session it was called
from alive; the conservation law says exactly that. A revoked token is refused until less than a second of its life is left;
the gap exists exactly when it is revoked off a whole second of the clock. What a login, a switch or a refresh returns
works: the first token is accepted, for its user and organization and with the permissions of the profile read (none after a
refresh), for 15 minutes and no longer; the second refreshes, for 14 days, and nothing else. What a logout or a switch took
back is refused, but for that last second.

**SAML replay cache.** A request takes three steps: the parser lets the response through, the clock is read for the TTL, and
Redis marks the identifier. An assertion is accepted at most once if the key that marks it covers the assertion and the
request that set it out reaches Redis before the assertion's deadline. Both conditions are needed: the TTL drops the
fraction of a second that is left, it is capped at a day, and nothing stops a request that passed the parser in time from
marking late. A key covers its assertion exactly when no run in which it is the first to be set, with all marks before the
deadline, accepts a second copy. With a clock of whole seconds and at most a day left, marking before the deadline is enough
over every run.

**Outbox, publisher, consumers.** Crashes may undo marks but not sends. Every event is sent at least once when polls go on,
exactly once without crashes, and pending rows drain in ceil(n / 100) polls; while transactions go on committing, a row with
n pending rows no younger is sent and published within ceil(n / 100) completed polls, as long as only younger rows arrive,
crashes or not. Messages do not always leave in the order of created_at: a transaction that is opened first and commits last
breaks it, without any crash. In a run without crashes that leaves nothing to publish the order holds exactly when no
transaction commits a row older than one already sent or taken into the running poll, and with crashes exactly when no step
lets a waiting row fall behind. Whatever messages the consumers handle, each delivery row carries the event of its own
organization, global events create none, and the counts are the sums of what each message owes. Every row, message and
delivery says, column by column, what one call of audit_and_emit in the run said; and a call for an organization whose event
is published is on that organization's feed.

**Embeddings.** The cosine is taken over the reals, with the Cauchy-Schwarz inequality proved together with its case of
equality. The bag of hashed tokens may cancel out; then the embedding is zero and not of length one. Entry by entry the bag
is the number of tokens that fall there with the high bit of their hash set, minus those without; texts that share no entry
have cosine zero.

**Indexer.** The documentation says that the worker catches up. It does so exactly when every closed case is among the 100
updated last or was embedded before; with 101 closed cases and no rows the oldest is never reached. While others edit the
cases, a closed case inside the window with n waiting cases no older is embedded within ceil(n / 25) rounds, unless a case
comes to stand before it.

**Mentions.** What the regular expression matches is the longest phrase after every @ of the text, and one event goes to
each member so named.

**Alerts.** The JSON column `custom_fields` takes an explicit null as the JSON value null. A bulk patch stores it; a merge,
a promotion and a single patch that leaves the field out then fail when they read it back as a dictionary. Over every run a
row is in that state exactly when the last successful request to write the column was such a bulk patch; an ingestion of the
alert, or a patch of either kind that sends a dictionary, repairs it. Promotion, merge and patch succeed exactly when their
guards hold and the row is not in that state. What each request writes is stated column by column over every run.

**Analyzer jobs.** A message of more than 2000 characters raised by an analyzer does not fit `error_message`, so the commit
fails, the exception ends the poll, and that job and the rest of its batch stay running for ever, as after a crash. k queued
jobs are all terminal exactly after ceil(k / 10) polls of which none was cut short or met such a message. While jobs go on
being enqueued, a job with n queued jobs no younger is claimed within ceil(n / 10) polls if the new ones are younger.

**Presigned URLs.** A service that rebuilds the canonical request from the URL alone, decoding the query, sorting it and
encoding it again, by its own definition of what is signed, accepts the URL in both addressing styles whenever it asks for
what was signed. Whatever the endpoint and the bucket are, it asks for that exactly when, in path style, the endpoint is
http or https and an authority with nothing but slashes after it, which must not end in `http:` or `https:` before two
slashes or more, and the bucket has no ? or #: the code removes such an ending as if it were a scheme. With the bucket in
the host, the condition is that neither the bucket nor what the code takes for the host has a /, ? or #; if no scheme text
occurs again after the endpoint's own, that too says that the endpoint has no path. Read back by itself, the URL names the
bucket and the object key, the endpoint, and the six parameters of signature version 4 in order.

## Model

| member | source | states |
|---|---|---|
| RateLimit.RouteBucket | backend/adhkar/core/ratelimit.py:33-39 | the first family in the table whose name the path starts with is the only one; the default otherwise |
| RateLimit.BucketIsUnique | backend/adhkar/core/ratelimit.py:24-39 | no path belongs to two route families |
| RateLimit.BucketOfPath | backend/adhkar/core/ratelimit.py:22-39 | the family and the limit of every path, as the table lists them |
| RateLimit.KeyIsInjective | backend/adhkar/core/ratelimit.py:68-70 | distinct (bucket, client) pairs never share a counter, whatever the client string contains |
| RateLimit.Middleware.Dispatch | backend/adhkar/core/ratelimit.py:63-86 | one request takes its INCR step and, if the count is one, its EXPIRE step; it is refused, with the family and its limit, exactly when the count exceeds the limit the table has for the path |
| RateLimit.StepKeepsKeyInvariant | backend/adhkar/core/ratelimit.py:75-78 | every step keeps: counts of a key rise by one or restart at one, restarts are a window apart, at most one request owes the EXPIRE |
| RateLimit.RunKeepsKeyInvariant | backend/adhkar/core/ratelimit.py:75-78 | the same over runs |
| RateLimit.BirthsAreSpaced | backend/adhkar/core/ratelimit.py:75-77 | n restarts of a counter in an interval take at least n - 1 windows |
| RateLimit.AdmittedPerBirth | backend/adhkar/core/ratelimit.py:75-83 | fewer than limit * (restarts + 1) requests are let through in an interval |
| RateLimit.WindowBound | backend/adhkar/core/ratelimit.py:23-86 | in every run and any T milliseconds fewer than limit * (ceil(T / 60000) + 1) requests of one client pass |
| RateLimit.MinuteBound | backend/adhkar/core/ratelimit.py:23-86 | fewer than 2 * limit in any minute |
| RateLimit.MinuteBoundOfPath | backend/adhkar/core/ratelimit.py:22-86 | on login paths fewer than 20 requests of a client pass in any 60000 ms, on refresh paths 60, on mfa paths 40, on user paths 120, and never 1200 |
| RateLimit.MinuteBoundIsReached | backend/adhkar/core/ratelimit.py:23-86 | some run lets 2 * limit - 1 through in a minute, for every family and client |
| RateLimit.LifetimeBound | backend/adhkar/core/ratelimit.py:75-83 | without a restart in the interval, fewer than limit pass |
| RateLimit.LifetimeLetsThrough | backend/adhkar/core/ratelimit.py:75-83 | within one lifetime of a counter exactly the first limit requests pass |
| RateLimit.RefusedForAMinute | backend/adhkar/core/ratelimit.py:75-86 | in every run, for 60000 ms after the EXPIRE of its counter, a client is let through exactly for what is left of the limit |
| RateLimit.StuckExactlyWhen | backend/adhkar/core/ratelimit.py:75-78 | in every run a counter has no deadline, and no request left to set one, exactly when a request that started it died before its EXPIRE |
| RateLimit.RefusedForEver | backend/adhkar/core/ratelimit.py:75-86 | from then on, in every run and however late, the client is let through only for what is left of the limit |
| Credentials.CommitKeepsChains | backend/adhkar/auth/tokens.py:101-120 | committing a rotation keeps: a rotated row is revoked, has one successor, and the successor has its user and organization |
| Credentials.StepKeepsConsistent | backend/adhkar/auth/tokens.py:30-140 | every step of every request keeps the session table, the tokens and the open transactions consistent |
| Credentials.SingleRotation | backend/adhkar/auth/tokens.py:101-120 | however many requests present one refresh token and interleave, at most one rotation of it commits |
| Credentials.RootHasSameOwner | backend/adhkar/auth/tokens.py:112-120 | a chain of sessions begins with a login or switch of the same user and organization |
| Credentials.OneLiveSessionPerLogin | backend/adhkar/auth/tokens.py:83-120 | two live sessions that descend from the same login or switch are the same session |
| Credentials.LiveSessionsConserved | backend/adhkar/api/v1/auth.py:128-243 | live sessions = logins + organization switches - rows revoked by committed logouts |
| Credentials.GrantsWereRead | backend/adhkar/api/v1/auth.py:105-117 | every grant in a run was read from a profile of that user's membership by some earlier login or switch |
| Credentials.TokenAuthority | backend/adhkar/api/v1/auth.py:140-204 | a token's permissions are exactly those of one profile read at an earlier login or switch for its user and organization; refreshed tokens have none |
| Credentials.KeyAuthority | backend/adhkar/api/v1/api_keys.py:95-111 | a key's scope lies within a profile read for its user in the organization of the token it began with; a key minted with a key is no wider than it |
| Credentials.KeyActsWithinProfileExactlyWhen | backend/adhkar/api/deps.py:129-142 | that a profile of the organization a key acts in, its user's default one, covers its scope holds over every run exactly when its first token was of that organization |
| Credentials.RevokedTokenIsRefused | backend/adhkar/auth/tokens.py:131-144 | after revoke_session no later request with the token is accepted until less than a second of its life is left |
| Credentials.GapExactlyOffTheSecond | backend/adhkar/auth/tokens.py:137-140 | the revocation leaves that gap exactly when it happens off a whole second |
| Credentials.RevokedKeyIsRefused | backend/adhkar/api/deps.py:107-113 | a revoked API key is refused in every later state |
| Credentials.KeyAcceptedExactlyWhen | backend/adhkar/api/deps.py:107-118 | over every run a key is accepted exactly when it was minted, is not past its expiry, and nobody revoked it |
| Credentials.DeniedExactlyUntil | backend/adhkar/auth/tokens.py:131-144 | a revocation with a second or more to live denies the jti exactly up to the last whole second counted from it; with less to live it denies nothing new; no other jti is touched |
| Credentials.RequestHandsOut | backend/adhkar/auth/tokens.py:30-80 | whatever state a run has reached, of the two tokens a request signs the first authenticates, with the permissions of the profile its job read, for 15 minutes, and the second refreshes for 14 days and has a live session row of its owner |
| Credentials.LogoutTakesBack | backend/adhkar/api/v1/auth.py:214-243 | a logout revokes the caller's token and the cookie's, if that decodes, and leaves neither a live session row |
| Credentials.Service.IssuePair | backend/adhkar/auth/tokens.py:30-80 | signs an access and a refresh token for the same issue and inserts the row of the refresh token |
| Credentials.Service.Revoke | backend/adhkar/auth/tokens.py:123-140 | revokes the row if it is live and denies the jti for the whole seconds that are left |
| Credentials.Service.RefreshTokens | backend/adhkar/api/v1/auth.py:128-157 | whatever other transactions are open, succeeds exactly for a valid, live refresh token, as the four steps of a refresh; returns an access token without permissions that authenticates and a refresh token that refreshes, both of the cookie's user and organization, and ends the old session; a refusal changes nothing and has the cause the code finds first |
| Credentials.Service.Login | backend/adhkar/api/v1/auth.py:73-125 | once the password has been compared: succeeds exactly for a right password, an active user and some organization; the tokens returned work, with the chosen organization's profile |
| Credentials.Service.CurrentUser | backend/adhkar/api/deps.py:82-159 | the acceptance rule for tokens and API keys |
| Credentials.Service.SwitchOrg | backend/adhkar/api/v1/auth.py:164-211 | whatever other transactions are open, succeeds exactly for an accepted token of a member of the target organization, as the four steps of a switch; the tokens returned work, with the target's profile, and the caller's is refused up to its last second |
| Credentials.Service.Logout | backend/adhkar/api/v1/auth.py:214-245 | whatever other transactions are open, succeeds exactly for an accepted token, as the four steps of a logout; the caller's token and the cookie's are refused up to their last second |
| Credentials.Service.CreateMyKey | backend/adhkar/api/v1/api_keys.py:89-114 | a key is minted exactly when its scope is known and within the caller's permissions |
| Credentials.Service.RevokeKeyOf | backend/adhkar/api/v1/api_keys.py:117-164 | revokes exactly a live key of that owner, and nothing else |
| SamlReplay.OutlivesExactlyWhen | backend/adhkar/auth/saml_verifier.py:76-80 | the key outlives the assertion exactly when at most a day is left, skew included, in whole seconds |
| SamlReplay.AcceptedAtMostOnce | backend/adhkar/auth/saml_verifier.py:76-80 | under coverage and punctual marking an assertion is accepted at most once in any run |
| SamlReplay.CoversExactlyWhen | backend/adhkar/auth/saml_verifier.py:76-80 | for each assertion and instant: the key computed then outlives the assertion exactly when no run in which it is the first to be set, without late marks, accepts a second copy |
| SamlReplay.AcceptedAtMostOnceByWholeSeconds | backend/adhkar/auth/saml_verifier.py:76-80 | over every run by a whole-second clock, an assertion with at most a day left, marked before its deadline, is accepted at most once |
| SamlReplay.AcceptedTwiceWhenUncovered | backend/adhkar/auth/saml_replay.py:23-26 | without coverage some run accepts the assertion twice |
| SamlReplay.AcceptedTwiceWhenLate | backend/adhkar/auth/saml_verifier.py:57-80 | a copy parsed in time and marked late is accepted again |
| SamlReplay.Verifier.MarkSeen | backend/adhkar/auth/saml_replay.py:17-26 | true exactly on first sight; sets the key for between one second and a day, or leaves the store as it is |
| SamlReplay.Verifier.VerifyAndExtract | backend/adhkar/auth/saml_verifier.py:50-92 | a response that parses takes the three steps, at three instants, and is accepted exactly on first sight; a refused one changes nothing; every error has the code's kind |
| Channels.ParseOfPrint | backend/adhkar/notifications/dispatcher.py:130-133 | every printed UUID parses back to itself |
| Channels.PrintShape | backend/adhkar/workers/outbox_publisher.py:24-25 | a UUID prints as 36 characters, its digits in groups of 8, 4, 4, 4 and 12 |
| Channels.ChannelRoundTrip | backend/adhkar/workers/outbox_publisher.py:24-25 | the dispatcher reads from a channel name the organization the publisher wrote into it |
| Channels.GlobalIsNoUuid | backend/adhkar/notifications/dispatcher.py:130-133 | the global channel names no organization |
| Channels.ChannelIsInjective | backend/adhkar/workers/outbox_publisher.py:24-25 | two scopes never share a channel |
| Channels.LastSegmentAfterDot | backend/adhkar/notifications/dispatcher.py:131 | what follows the last dot of a channel name |
| Outbox.EventCommitsWithAudit | backend/adhkar/audit.py:50-66 | in every run an event row is committed exactly when the audit row written with it is |
| Outbox.StepKeepsPairs | backend/adhkar/audit.py:37-66 | every step keeps audit and event rows paired, in the tables and in every open transaction |
| Outbox.PublishedWasSent | backend/adhkar/workers/outbox_publisher.py:41-64 | published_at is set only on rows that were sent, and a row is sent at most once more than there were crashes |
| Outbox.MessagesAreCommittedEvents | backend/adhkar/workers/outbox_publisher.py:45-58 | every message on the wire is a committed row's, on its own organization's channel |
| Outbox.PollRun | backend/adhkar/workers/outbox_publisher.py:28-64 | a poll that runs to its commit is a run of the steps |
| Outbox.PollShrinks | backend/adhkar/workers/outbox_publisher.py:31-61 | a poll takes min(100, pending) rows off the queue |
| Outbox.DrainSends | backend/adhkar/workers/outbox_publisher.py:41-61 | crash-free polls send each row they take off the queue exactly once |
| Outbox.DrainedInCeilPolls | backend/adhkar/workers/outbox_publisher.py:28-64 | n pending rows are drained in ceil(n / 100) crash-free polls, each sent once more, every committed row at least once |
| Outbox.LeavesQueueInCeilPolls | backend/adhkar/workers/outbox_publisher.py:28-64 | while commits, polls and crashes interleave, a row with n pending rows no younger is sent and published by the time ceil(n / 100) polls have completed, one more if a poll was running, if only younger rows are committed |
| OutboxOrder.InOrderExactlyWhenTimely | backend/adhkar/workers/outbox_publisher.py:31-64 | in a run without crashes that leaves nothing to publish, messages went out in the order of created_at exactly when no transaction committed a row older than one sent or taken into the running poll |
| OutboxOrder.InOrderExactlyWhenInTime | backend/adhkar/workers/outbox_publisher.py:31-64 | the same whatever crashes the run has, the condition being that no step let a waiting row fall behind |
| OutboxOrder.RunInTimeExactlyWhen | backend/adhkar/workers/outbox_publisher.py:31-64 | over every run: all steps were in time exactly when the messages went out in order and no waiting row has been overtaken |
| OutboxOrder.SentInOrder | backend/adhkar/workers/outbox_publisher.py:31-58 | a timely run sends in the order of created_at at every moment, drained or not |
| OutboxOrder.LateCommitBreaksOrder | backend/adhkar/workers/outbox_publisher.py:31-39 | the witness: a drained run without crashes in which the transaction opened first commits last, out of order |
| Outbox.Database.PublishPending | backend/adhkar/workers/outbox_publisher.py:28-64 | a poll sends its batch in order and marks it; cut short before message k it has sent k messages and marked none |
| Outbox.Database.AuditAndEmit | backend/adhkar/audit.py:19-66 | both rows join the transaction, or the audit row alone |
| OutboxContent.RowsSayTheirCall | backend/adhkar/audit.py:37-66 | over every run a committed audit row has the columns of one call of the run, and names an event row of that call's organization, type, payload and time exactly if the call was to write one |
| OutboxContent.EventAgreesWithAudit | backend/adhkar/audit.py:50-66 | an event row and the audit row that names it have the same organization and, by default, the same entity and diff |
| OutboxContent.EventIsOfItsCall | backend/adhkar/audit.py:54-62 | a committed event row says what the call that drew its identifier said: the type given, or entity.action if none or an empty one is; the payload given, or the entity and the diff |
| OutboxContent.MessageHasCall | backend/adhkar/workers/outbox_publisher.py:24-58 | every message of every run says what one call of the run said, on the channel of that call's organization |
| OutboxContent.PublishedCallWasSent | backend/adhkar/workers/outbox_publisher.py:41-61 | a call whose event is published has been sent, as the call had it |
| Routing.CheckFilter | backend/adhkar/notifications/dispatcher.py:26-35 | true exactly when every entry of the filter matches, lists meaning any of |
| Routing.MatchesIsAntitone | backend/adhkar/notifications/dispatcher.py:26-35 | adding keys to a filter can only lose events; the empty filter matches all |
| Routing.Dispatcher.DispatchRule | backend/adhkar/notifications/dispatcher.py:75-106 | a rule adds one row per listed id that parses and names a usable endpoint, recording the answer to its request |
| Routing.Dispatcher.DispatchEvent | backend/adhkar/notifications/dispatcher.py:56-107 | a dispatch commits exactly the rows owed to every rule and endpoint, or none |
| Routing.Dispatcher.HandleMessage | backend/adhkar/notifications/dispatcher.py:125-143 | a message is dispatched in the organization its channel names; other messages change nothing |
| Routing.Dispatcher.HandleMessages | backend/adhkar/notifications/dispatcher.py:110-143 | any messages of a publisher's log, in any order and with rules and endpoints changing between them, add each the rows its own handling owes |
| Routing.OwedByRule | backend/adhkar/notifications/dispatcher.py:63-107 | what is owed under a rule's id is its listed ids, if the rule fires and the endpoint is usable |
| Routing.DeliversExactlyWhen | backend/adhkar/notifications/dispatcher.py:56-107 | a dispatch adds a row for a rule and an endpoint exactly when a rule with that id is enabled, of the organization, passed by the event and lists the endpoint, which is enabled and of the organization; and each row records its answer |
| Routing.MessageIsOfRow | backend/adhkar/workers/outbox_publisher.py:45-58 | every message of every publisher run is its committed row's, and its channel parses to that row's organization |
| Routing.DeliveriesCarryOwnEvents | backend/adhkar/notifications/dispatcher.py:56-143 | every delivery row carries the event of a message that was handled, under the organization of that event's committed row; global messages add none |
| Routing.DeliveriesAreOwed | backend/adhkar/notifications/dispatcher.py:56-143 | the delivery rows of a rule and endpoint number the sum of what each handled message owes them, if no request raises |
| Routing.DeliveryHasCall | backend/adhkar/workers/outbox_publisher.py:45-58 | every delivery row is for one call of the run: of its organization, with its event as the JSON object that was published |
| Routing.LiveFeedIsOwnEvents | backend/adhkar/api/v1/live.py:48-59 | a live feed forwards exactly its organization's messages, in the order sent |
| Routing.CallReachesFeed | backend/adhkar/api/v1/live.py:48-59 | a call for an organization whose event is committed and published is on that organization's feed, as the call had it |
| Embeddings.CosineSymmetric | backend/adhkar/ai/embeddings.py:81-88 | the cosine is symmetric |
| Embeddings.CosineMeans | backend/adhkar/ai/embeddings.py:81-88 | the cosine times both norms is the dot product; it is zero for a zero vector and for different lengths |
| Embeddings.CauchySchwarz | backend/adhkar/ai/embeddings.py:81-88 | the inequality for vectors of any length, and what equality means |
| Embeddings.CosineInRange | backend/adhkar/ai/embeddings.py:81-88 | the cosine lies in [-1, 1] |
| Embeddings.CosineIsOneIff | backend/adhkar/ai/embeddings.py:81-88 | it is one exactly for vectors that point the same way |
| Embeddings.SelfCosine | backend/adhkar/ai/embeddings.py:81-88 | a vector's cosine with itself is one, or zero if the vector is |
| Embeddings.RatioGuard | backend/adhkar/ai/embeddings.py:88 | two nonzero norms have a nonzero product, so the guard of the division suffices |
| HashBag.TokensSplit | backend/adhkar/ai/embeddings.py:16-45 | a separator splits the tokens of a text into those before and those after it |
| HashBag.TokensOfJoin | backend/adhkar/ai/embeddings.py:16-45 | joining words with any separator and tokenising gives the words back |
| HashBag.BagOfConcat | backend/adhkar/ai/embeddings.py:44-49 | the bag is additive over concatenation of tokens |
| HashBag.BagOfPermuted | backend/adhkar/ai/embeddings.py:44-49 | the bag ignores the order of tokens |
| HashBag.BagCounts | backend/adhkar/ai/embeddings.py:44-49 | entry i is the number of tokens whose hash is i modulo 128 and at least 2^31, minus the number with that residue and a smaller hash |
| HashBag.Embed | backend/adhkar/ai/embeddings.py:43-52 | the loop and the division compute the normalised bag of the lower-cased text's tokens |
| HashBag.UnitLength | backend/adhkar/ai/embeddings.py:50-51 | the embedding has length one exactly when the bag is not zero, and is zero otherwise |
| HashBag.CosineOfScaled | backend/adhkar/ai/embeddings.py:50-88 | scaling a vector keeps its cosines |
| HashBag.SimilarityIsThatOfBags | backend/adhkar/ai/embeddings.py:43-88 | two embeddings are exactly as similar as their bags |
| HashBag.ReorderedTextsAgree | backend/adhkar/ai/embeddings.py:43-88 | texts with the same tokens in any order have the same embedding, with cosine one unless the bag is zero |
| HashBag.ApartTextsDiffer | backend/adhkar/ai/embeddings.py:43-88 | texts whose tokens share no residue modulo 128 have cosine zero |
| Indexer.TodoIsNew | backend/adhkar/workers/embedding_indexer.py:54 | a round takes up new cases only, min(25, waiting) of them, the newest first |
| Indexer.Worker.IndexOneBatch | backend/adhkar/workers/embedding_indexer.py:37-71 | a round adds the rows of those cases, each closed and not deleted, with the embedding of its text and its first 1000 characters, and returns their number; an interrupted one changes nothing |
| Indexer.RoundCounts | backend/adhkar/workers/embedding_indexer.py:37-71 | what a round leaves waiting, and that it adds as many rows as it takes up |
| Indexer.EmbeddedAtMostOnce | backend/adhkar/workers/embedding_indexer.py:40-71 | whatever others do to the cases between rounds, a case is embedded at most once and its row stays |
| Indexer.CoveredAfterCeilRounds | backend/adhkar/workers/embedding_indexer.py:37-71 | on an unchanging table the window is covered exactly from ceil(k / 25) rounds on, and that is a fixpoint |
| Indexer.CaughtUpExactlyWhen | backend/adhkar/workers/embedding_indexer.py:1-5 | all closed cases are embedded exactly after that many rounds and if none waits outside the window |
| Indexer.EmbeddedInCeilRounds | backend/adhkar/workers/embedding_indexer.py:37-71 | among edits and interruptions, a closed case inside the window with n waiting cases no older is embedded within ceil(n / 25) rounds, unless a case comes to stand before it |
| Indexer.NeverReached | backend/adhkar/workers/embedding_indexer.py:43-54 | a case that 100 closed cases were updated after is embedded by no number of rounds |
| Indexer.CrowdIsNeverCaughtUp | backend/adhkar/workers/embedding_indexer.py:1-5 | the witness: 101 closed cases with no rows, the oldest of which is never embedded |
| Indexer.SmallTableFitsWindow | backend/adhkar/workers/embedding_indexer.py:43-53 | the window holds all closed cases exactly when there are at most 100 |
| Indexer.WindowIsDetermined | backend/adhkar/workers/embedding_indexer.py:43-53 | two answers to the query hold the same cases unless a tie straddles the cut |
| Mentions.MatchShape | backend/adhkar/services/mentions.py:19 | a match is words of name characters with single spaces between, and cannot be longer |
| Mentions.NoAtInside | backend/adhkar/services/mentions.py:19 | no match swallows a later @ |
| Mentions.ScanFindsMentions | backend/adhkar/services/mentions.py:32 | the greedy scan finds exactly the longest phrase after each @ |
| Mentions.PhraseIsStripped | backend/adhkar/services/mentions.py:32 | strip changes no match |
| Mentions.CandidatesAreMentions | backend/adhkar/services/mentions.py:32 | the candidates are exactly the mentions of the text |
| Mentions.Session.EmitMentions | backend/adhkar/services/mentions.py:22-66 | one event for each live member, other than the author, whose display name is mentioned, and their number |
| Mentions.OthersAreRecipients | backend/alembic/versions/0002_phase1a_identity.py:162 | the selected rows without the author are the recipients, each once, as memberships are unique |
| Mentions.MentionRow | backend/adhkar/services/mentions.py:56-64 | the event row of a mention is "user.mentioned", of the organization, with the user's identifier and the fields |
| Mentions.NameCharactersAre | backend/adhkar/services/mentions.py:19 | names are of ASCII letters, digits, underscores, dots and dashes |
| Alerts.ItemsPatch | backend/adhkar/api/v1/alerts.py:463-464 | assigning the fields that were sent one by one gives the patched row, null clearing what may be null |
| Alerts.StepKeeps | backend/adhkar/api/v1/alerts.py:328-648 | every request keeps the store valid, every row's key and case link, and every case |
| Alerts.CaseLinkIsStable | backend/adhkar/api/v1/alerts.py:328-648 | over every run a row that survives keeps its key, and its case and import time once set |
| Alerts.ReachableStores | backend/adhkar/api/v1/alerts.py:371-648 | imported_at is set exactly when case_id is, the case is the organization's own, keys and case numbers are unique |
| Alerts.NullFieldsExactlyWhen | backend/adhkar/api/v1/alerts.py:336-422 | before any request of any run a row's custom fields are null exactly when the last successful request to write them was a bulk patch that wrote null |
| Alerts.NullFieldsBlockPromotion | backend/adhkar/api/v1/alerts.py:336-531 | the witness: an ingestion and a bulk patch after which promoting a visible, unlinked alert with a short title is a server error |
| Alerts.PromotesExactlyWhen | backend/adhkar/api/v1/alerts.py:485-531 | over every run a promotion succeeds exactly for a visible, unlinked alert with a title that fits whose custom fields were not nulled |
| Alerts.MergesExactlyWhen | backend/adhkar/api/v1/alerts.py:620-648 | over every run a merge succeeds exactly for such an alert and a live case of the organization |
| Alerts.PatchesExactlyWhen | backend/adhkar/api/v1/alerts.py:450-466 | over every run a patch succeeds exactly when it nulls nothing required and either sends a dictionary or leaves custom fields alone that are not null |
| Alerts.CasesArePromotions | backend/adhkar/api/v1/alerts.py:486-531 | one case is created for each successful promotion, and none by any other request on alerts |
| Alerts.LinkedAtMostOnce | backend/adhkar/api/v1/alerts.py:498-646 | an alert is promoted or merged successfully at most once in its life, and has a case exactly if it was |
| Alerts.MergedStep | backend/adhkar/api/v1/alerts.py:389-420 | merging a list of bodies is ingesting the first one and merging the rest into the result |
| Alerts.IngestionIsAFold | backend/adhkar/api/v1/alerts.py:371-432 | any sequence of ingestions leaves one row per key: last overwritten fields, last non-null description and payload, first date, New once and Updated after, Ignored and Imported kept |
| Alerts.Table.IngestAlert | backend/adhkar/api/v1/alerts.py:371-432 | upserts the row of the key |
| Alerts.Table.PatchAlert | backend/adhkar/api/v1/alerts.py:450-466 | patches the row, or refuses with no change |
| Alerts.Table.BulkPatchAlerts | backend/adhkar/api/v1/alerts.py:328-367 | patches exactly the requested rows of the organization, all or none, and lists them |
| Alerts.Table.NextNumber | backend/adhkar/db/repositories/cases.py:14-22 | one more than the organization's largest case number, or one |
| Alerts.Table.PromoteAlert | backend/adhkar/api/v1/alerts.py:485-531 | opens a case with the alert's fields and links the alert, or refuses with no change |
| Alerts.Table.MergeAlertIntoCase | backend/adhkar/api/v1/alerts.py:620-648 | links the alert to a live case of the organization, or refuses with no change |
| Alerts.Table.DeleteAlert | backend/adhkar/api/v1/alerts.py:469-482 | removes exactly that row, or refuses |
| AlertColumns.RequestWrites | backend/adhkar/api/v1/alerts.py:328-648 | over every run a request that succeeds writes, column by column, what it should and touches nothing else: the row posted or posted again, the fields patched, the case of a promotion with the title and severity given or else the alert's, the link; and a refusal is the right one and writes nothing |
| AnalyzerJobs.StepKeeps | backend/adhkar/workers/analyzer_runner.py:28-72 | every step keeps the columns in agreement with the status and moves rows forward only |
| AnalyzerJobs.RunKeeps | backend/adhkar/workers/analyzer_runner.py:28-72 | the same over runs, crashes included |
| AnalyzerJobs.ReachableJobs | backend/adhkar/workers/analyzer_runner.py:41-68 | started_at exactly when not queued, finished_at exactly when terminal, report exactly on success, error_message exactly on failure |
| AnalyzerJobs.ClaimedAtMostOnce | backend/adhkar/workers/analyzer_runner.py:31-43 | a job is claimed at most once; what a crash leaves running is never selected again |
| AnalyzerJobs.StepWrites | backend/adhkar/workers/analyzer_runner.py:28-72 | each step writes these columns and no others: a new job; the start of the at most ten oldest queued ones; the end of one with its report or its message |
| AnalyzerJobs.PollRun | backend/adhkar/workers/analyzer_runner.py:23-72 | a poll, however far it gets, is a run of the steps |
| AnalyzerJobs.QueueEmpties | backend/adhkar/workers/analyzer_runner.py:31-44 | the queue is empty exactly from ceil(k / 10) polls on |
| AnalyzerJobs.AllTerminalExactlyWhen | backend/adhkar/workers/analyzer_runner.py:23-72 | the k jobs queued at the start are all terminal exactly after ceil(k / 10) polls none of which was cut short or met a result that cannot be stored |
| AnalyzerJobs.ClaimedInCeilPolls | backend/adhkar/workers/analyzer_runner.py:31-44 | while jobs are enqueued and the worker crashes and restarts, a job with n queued jobs no younger is claimed within ceil(n / 10) claims, if only younger jobs are enqueued |
| AnalyzerJobs.TerminalInCeilPolls | backend/adhkar/workers/analyzer_runner.py:23-72 | and if no poll crashes or meets a result that cannot be stored it is terminal by the end of those polls |
| AnalyzerJobs.DrainedJobs | backend/adhkar/workers/analyzer_runner.py:31-72 | polls leave a job that was running running for ever |
| AnalyzerJobs.StrandsExactlyWhen | backend/adhkar/workers/analyzer_runner.py:45-72 | a poll strands a job exactly when it is cut short or meets a result that cannot be stored |
| AnalyzerJobs.Runner.RunPending | backend/adhkar/workers/analyzer_runner.py:23-72 | the two loops claim the batch and run it to where it is cut short |
| AnalyzerJobs.Runner.EnqueueJob | backend/adhkar/api/v1/analyzer_jobs.py:84-116 | queues a job exactly for a live observable of the organization whose type a registered analyzer takes |
| PresignedUrl.DecodeOfQuote | backend/adhkar/storage/presigned.py:60-79 | percent-decoding undoes quote (sections 2.1 and 2.3 of RFC 3986) |
| PresignedUrl.SortedKeeps | backend/adhkar/storage/presigned.py:78 | the parameters are sorted by key and none is lost |
| PresignedUrl.QueryRoundTrip | backend/adhkar/storage/presigned.py:69-105 | the query splits and decodes to the six parameters in sorted order and then the signature |
| PresignedUrl.HostIsAuthorityExactlyWhen | backend/adhkar/storage/presigned.py:59-64 | the signed host is the endpoint's authority exactly when that does not look like a scheme |
| PresignedUrl.AsSignedExactlyWhen | backend/adhkar/storage/presigned.py:58-105 | for every endpoint and bucket, in both addressing styles: the URL asks for the host, the path and the query that were signed, with the endpoint's scheme, exactly when the configuration meets the condition |
| PresignedUrl.NoPathExactlyWhen | backend/adhkar/storage/presigned.py:63-67 | with the bucket in the host, an endpoint in which no scheme text occurs again meets the condition exactly when it has no path |
| PresignedUrl.UrlNamesObject | backend/adhkar/storage/presigned.py:58-68 | read back, the path of the URL is the object key, after the bucket in path style; a plain key is written as it is |
| PresignedUrl.KeysHaveOwnPaths | backend/adhkar/storage/presigned.py:58-68 | under one configuration two keys never share the path of a URL |
| PresignedUrl.UrlReachesEndpoint | backend/adhkar/storage/presigned.py:58-68 | the URL has the endpoint's scheme and authority, with the bucket before it in host style |
| PresignedUrl.UrlCarries | backend/adhkar/storage/presigned.py:69-105 | the query holds the six parameters in order, with these names and values, and then the signature |
| PresignedUrl.AcceptedByService | backend/adhkar/storage/presigned.py:41-105 | whenever the URL asks for what was signed: a service that decodes the query, sorts and encodes it again without the signature, joins the lines of the canonical request and derives the key itself, finds the same signature |
| CaseObservables.Table.Attach | backend/adhkar/api/v1/case_observables.py:403-456 | points the found rows at the case and counts those moved, those already there and the unknown ids |
| CaseObservables.Table.Detach | backend/adhkar/api/v1/case_observables.py:463-493 | takes exactly that observable off the case, or refuses with no change |
| CaseObservables.AttachConserves | backend/adhkar/api/v1/case_observables.py:431-456 | attached + already + unknown is the number of distinct ids; the case gains what was attached; other rows stay |
| CaseObservables.RepeatAttachesNone | backend/adhkar/api/v1/case_observables.py:436-442 | a repeat attaches none and changes nothing |
| CaseObservables.DetachUndoesAttach | backend/adhkar/api/v1/case_observables.py:471-484 | detaching puts back a table in which the observable was on no case |
| CaseObservables.GroupByCountsAll | backend/adhkar/api/v1/case_observables.py:312-342 | the counts of a group by add up to the number of rows |
| CaseObservables.SummaryTotals | backend/adhkar/api/v1/case_observables.py:159-177 | a zero-filled summary counts each canonical value, and totals the rows exactly when all values are canonical |
| CaseObservables.PapTotal | backend/adhkar/api/v1/case_observables.py:139-177 | the same for the four PAP values |
| CaseObservables.TlpTotal | backend/adhkar/api/v1/case_observables.py:195-234 | the same for the five TLP values |
| CaseObservables.TypeSummaryTotals | backend/adhkar/api/v1/case_observables.py:312-342 | the totals are the numbers of rows and of indicators among them, since the given moment |
| CaseObservables.SimilarityCounts | backend/adhkar/api/v1/case_observables.py:349-396 | each attached observable gets the number of the organization's live rows with its type and data, at least one |
| AgentLoop.CallTools | backend/adhkar/ai/agent.py:98-113 | one step and one message for each call, in order |
| AgentLoop.RunAgent | backend/adhkar/ai/agent.py:63-116 | the loop takes the rounds of the specification; final_text is the last assistant text on both exits, tool_calls the tool steps and the transcript less one |
| AgentLoop.RoundsAreAnswered | backend/adhkar/ai/agent.py:89-113 | from any transcript, every assistant step is followed by its calls' steps, and the budget is kept |
| AgentLoop.RunIsAnswered | backend/adhkar/ai/agent.py:63-116 | at most max_steps assistant steps, each answered in order; a run that stops early ends with a text without calls |
| AgentLoop.RunFollows | backend/adhkar/ai/agent.py:63-116 | each assistant text is the provider's answer to the prompt and all tool results before it, and each tool step reports its tool in the words of the loop |

## Left out

- HTTP, dependency injection, DTOs, CSV export, list and filter endpoints, settings, logging, the frontend, feeders and responders: plumbing.
- Cryptography (argon2, HMAC, SHA-256, JWT and SAML signatures): a signed token is one that was signed, hashes and digests are parameters.
- The databases themselves: row locks, unique constraints and aggregate queries are what PostgreSQL promises; INCR, EXPIRE, SET NX EX and pub/sub are atomic; identifiers are drawn fresh. The ORM's reloading of server-side columns after an UPDATE is not modelled.
- Redis failures: the limiter's fail-open path, and a denylist or replay cache that cannot be reached.
- Credentials.Service.Login: starts after the password has been compared; sign-in through an identity provider is the same job with no permissions.
- Credentials.Service.RefreshTokens: the uninterrupted request happens at one instant and finds its row unlocked; requests that wait for a row lock are covered by the runs, which interleave requests step by step. A cookie that does not decode is the error TokenInvalid of the model; the code raises an error of the JWT library there, which the endpoint does not catch (auth.py:149 catches ValueError alone), so that the answer is an internal error.
- Credentials.Service.Logout: likewise finds the cookie's row unlocked.
- Credentials.Service.CurrentUser: two API keys with one prefix, and the writing of last_used_at, are not modelled.
- SamlReplay.Verifier.VerifyAndExtract: attributes of the assertion are not modelled; the parser is taken to accept an assertion strictly before NotOnOrAfter plus 60 seconds.
- Channels.ParseOfPrint: int() also takes digits and spaces beyond ASCII, which the model of UUID(text) refuses; no printed UUID has any.
- More than one publisher, analyzer runner or indexer at a time: the code does not coordinate them.
- Outbox.DrainedInCeilPolls: no transaction commits between the polls; LeavesQueueInCeilPolls is about a system in which they do.
- AnalyzerJobs.QueueEmpties: no job is enqueued between the polls; ClaimedInCeilPolls and TerminalInCeilPolls are about a system in which they are.
- RateLimit.Middleware.Dispatch: at the very instant of its deadline a key is gone in the model and still there in Redis.
- Routing.CheckFilter: Python holds True equal to 1, so a filter may match a boolean against a number; the model keeps the two apart.
- Alerts.Table.PatchAlert: a refused request's pending writes and their rollback are not modelled; the contracts of the alert requests say that a refusal leaves the tables as they were.
- Concurrent promotion or merging of one alert: the code takes no lock, so requests on alerts are serial in the model. Audit rows of the alert endpoints are those of the outbox model and are not counted again.
- Embeddings.CosineInRange: over the reals, with math.sqrt an exact non-negative root; floating-point rounding and the printing of vectors are left out.
- Indexer.Worker.IndexOneBatch: the text built from a case is a column of the model; how it is put together is left out.
- HashBag.Embed: str.lower is a parameter; the text it returns is tokenised.
- PresignedUrl.AsSignedExactlyWhen: a URL whose scheme is written in capitals counts as no request; the host signed for such an endpoint keeps the scheme, so that the outcome is the same.
- PresignedUrl.AcceptedByService: text stands for its UTF-8 bytes; that a service refuses a URL whose host or path differs from what was signed would take the digests to be free of collisions, and is not stated.
- AgentLoop.RunAgent: a provider that raises ends the run with no result, which is not modelled; the parser of tool calls is any function of the text.
- AnalyzerJobs.AllTerminalExactlyWhen: results the database refuses for reasons other than the length of the error message are not modelled.
