# ServGrid protocols in Dafny

ServGrid runs field service for one company: an API over PostgreSQL and a mobile app that
works over bad connections. This project models the parts of it that must survive
retries, crashes, races and stale copies, and proves what they promise. `dafny verify
dfyconfig.toml` checks all of it.

| file | what it models |
|---|---|
| `Idempotency.dfy` | the idempotency plugin: one key row, any number of interleaved requests, statement by statement |
| `IdempotencyOutcomes.dfy` | what undisturbed requests come to, and for how long an answer is kept |
| `ConnectionPool.dfy` | the requests of all keys on one pool of connections: which statements fail on a connection that came back inside a transaction |
| `SubmitIntent.dfy` | one submit intent end to end: intent writer, fetch wrapper, a network that loses things, and the plugin |
| `OverlappingSends.dfy` | sends of one intent writer that overlap |
| `RefreshTokens.dfy`, `TokenRaces.dfy` | refresh-token rotation with reuse detection, by whole transactions and then statement by statement |
| `RefreshClient.dfy` | the single-flight refresh of the mobile client, composed with the token table |
| `NestedTransactions.dfy` | `withTransaction` over savepoints that share one name |
| `CanonicalJson.dfy`, `JsonText.dfy`, `Decimal.dfy` | canonical JSON, its normal form, and a parser that undoes the printer |
| `CanonicalBytes.dfy` | the canonical text byte by byte |
| `Contracts.dfy` | the AMC overlap protocol under row locks |
| `PingBuffer.dfy` | the GPS ping buffer and its flushes |
| `CompanyList.dfy`, `Ledger.dfy` | keyset pagination and the running balance of a company |
| `CashHandovers.dfy` | cash declarations, their sign-off and their audit trail |
| `WorkWindow.dfy` | the work window and when it next opens |
| `RateLimit.dfy` | the sliding-window limiter |
| `BusinessNumbers.dfy`, `Money.dfy` | printing and parsing of business numbers and rupee amounts |
| `Prelude.dfy`, `Sorting.dfy` | shared result types and an insertion sort with its laws |

A protocol is a `State`, an `Event` for each atomic step, `Next(state, event)`, and `Run`
over a history of events; its theorems are about every history. Where the source changes
an object or a table step by step, a class does the same with the same branches, and each
of its methods is proved to perform exactly the corresponding event. Pure code is modelled
by functions. Beside the theorems about all runs stand those named `…IsDecided` and
`…Exactly`: they give every outcome of an operation its exact condition, with the numbers
written out, and say what is stored and what stays.

In these places the code does less than it says or seems to.  The model follows the code,
and for each there is an input and the exact condition:

- `apps/mobile/src/lib/intentWrite.ts:12-14` says that after a 4xx nothing was saved. That
  holds if and only if the 4xx was the first answer under its key
  (`SubmitIntent.RefusalIsSafeExactlyWhenFirst`, and `OvertakenRetryMaySave` for a run the
  protocol produces by itself).
- `apps/api/src/db/tx.ts:42-46` returns the result of the outermost block once COMMIT has
  returned, but COMMIT of an aborted transaction rolls back without an error
  (`NestedTransactions.ReportIsFalseExactlyWhenSwallowed`).
- `apps/api/src/plugins/idempotency.ts:367-401` gives the connection back in `finally` also
  when STORE threw, which it does on an aborted transaction. The connection comes back inside
  that transaction if and only if the handler's text swallows a failed statement and its reply
  is a success (`Idempotency.ConnectionsComeBackIdleExactly`).
- `apps/api/src/plugins/idempotency.ts:39-40` says that a crash must not poison the key. A
  connection that came back aborted fails the BEGIN of whoever draws it, under any key, and
  `beginWork` gives it back as it was. A request gets to work if and only if every connection
  it draws is sound (`ConnectionPool.WorksExactlyOnSoundConnections`,
  `PoisonLastsUntilCleared`, `PoisonIsConserved`).
- `apps/api/src/plugins/idempotency.ts:114` gives a row thirty days, and `:132-138` does not
  renew them when it hands the row to a new owner. An answer is kept for thirty days from
  the CLAIM of its row, not from its own commit: one committed after a late RECLAIM may be
  pruned at once (`IdempotencyOutcomes.AnswersLastThirtyDays`, `PruneActsExactlyAfterThirtyDays`,
  `ReclaimedAnswersMayGoAtOnce`).
- `apps/mobile/src/lib/intentWrite.ts:2` promises one key for one intent. `key ??= await
  uuid()` looks, waits and then assigns, so two sends that overlap there carry two keys
  (`OverlappingSends.OneKeyExactlyWithoutOverlap`, `DoubleTapSendsTwoKeys`).
- `apps/api/src/modules/cash/repo.ts:364-370` says that undoing a sign-off never loses what
  it said. The audit entry of a reopen does not say who had signed, and the next sign-off
  replaces that name on the row (`CashHandovers.AnswerForgetsExactlyWhenOverwriting`,
  `SignersAreToldExactlyWhenNoneIsOverwritten`, `TwoSignersOneRecord`).
- `apps/api/src/modules/auth/repo.ts:143-158` says that presenting a revoked token revokes
  the whole chain. Taken statement by statement, a successor minted by a rotation under way
  is missed (`TokenRaces.SweepsAreCompleteExactlyWhenNothingWasMinted`,
  `RotationInFlightDecides`).
- `packages/shared/src/format.ts:30` drops a minus sign with everything else that is neither
  digit nor dot (`Money.FormattingKeepsTheAmount`, `MinusIsDropped`).

## Model

| member | source | states |
|---|---|---|
| `Idempotency.CommitsAreConserved` | apps/api/src/plugins/idempotency.ts:105-171 | in every reachable state the number of committed request transactions equals the stored answer (0 or 1) plus the stored answers pruned so far, and no request commits twice: two commits under one key need a prune of a stored answer between them |
| `Idempotency.StoredAnswerIsCommitted` | apps/api/src/plugins/idempotency.ts:145-150 | a stored response is the response of the last commit, is below 400, and carries the request hash of the request that committed it, also after reclaims and takeovers |
| `Idempotency.AnswersTellTheTruth` | apps/api/src/plugins/idempotency.ts:212-308 | what each kind of answer tells its client about the database: a fresh success was committed with exactly that answer, a replay was committed by an earlier request with the same hash, 409, 422 and an abort committed nothing, and a 500 (a COMMIT whose answer was lost) is the only failure that may hide a commit |
| `Idempotency.ConnectionsReturnOnce` | apps/api/src/plugins/idempotency.ts:358-402 | a request takes at most one connection and gives it back exactly once, whichever of send and abort comes first and also when one of their statements throws; only a dead process keeps it |
| `Idempotency.ConnectionsComeBackIdleExactly` | apps/api/src/plugins/idempotency.ts:367-401 | in every history, without a fault from outside: the database state in which the connection of a request comes back is inside a transaction if and only if the text of its handler ends in a swallowed failure and its reply was a success; that state is moved by BEGIN, the handler, STORE, COMMIT and ROLLBACK, and is never an open transaction |
| `Idempotency.SwallowedFailureComesBackAborted` | apps/api/src/plugins/idempotency.ts:367-375 | from every state, every handler that swallows a failed statement and answers with a success ends in a 500: nothing is saved, the row is untouched, and the connection goes back once, inside the aborted transaction |
| `Idempotency.RepliedIsRecorded` | apps/api/src/plugins/idempotency.ts:437-440 | the status settle went by is that of the first reply in the history that did not have to wait for the row |
| `Idempotency.TakenOverNeverCommits` | apps/api/src/plugins/idempotency.ts:380-392 | once the claim of a request was reclaimed, expired away or pruned, that request rolls back in every future |
| `Idempotency.StoredAnswerServesEveryone` | apps/api/src/plugins/idempotency.ts:269-284 | until it is pruned a stored answer never changes, nothing more is committed, and every later request that is answered gets exactly those bytes and status, or the 422 if its body hashes differently, or a 500 if one of its own lookups throws |
| `Idempotency.NoKeyIsPoisoned` | apps/api/src/plugins/idempotency.ts:286-308 | from every state that keeps the invariant, so from every reachable one, whose row holds no response: once the in-flight window has passed, one undisturbed request with the same hash gets the claim and starts work |
| `Idempotency.CommitsAreWhole` | apps/api/src/plugins/idempotency.ts:358-402 | a commit is what the handler that ran means as a program of nested blocks: every write outside them and of the blocks that returned, in order, none of a block that failed, and the program ends clean |
| `Idempotency.HandlersGrow` | apps/api/src/plugins/idempotency.ts:429-434 | the handler of a request is the sequence of exactly those parts that ran while its transaction was open and before it threw |
| `Idempotency.NextKeepsInv` | apps/api/src/plugins/idempotency.ts:105-171 | every SQL statement and hook, in any interleaving, keeps the protocol invariant (row shape, conservation, token ownership, connection and answer bookkeeping of every request) |
| `Idempotency.MovedKeepsInv` | apps/api/src/plugins/idempotency.ts:130-150 | a step of one request leaves the invariant of all others alone: the ownership token is what separates them |
| `Idempotency.Plugin.ClaimRow` | apps/api/src/plugins/idempotency.ts:105-117 | CLAIM inserts the row or takes over an expired row without a response, and otherwise leaves it alone |
| `Idempotency.Plugin.FetchRow` | apps/api/src/plugins/idempotency.ts:242-291 | the five verdicts on the row that won: gone, other hash, replay, in flight, stale |
| `Idempotency.Plugin.ReclaimRow` | apps/api/src/plugins/idempotency.ts:295-307 | RECLAIM succeeds exactly when the row still carries the token that was observed |
| `Idempotency.Plugin.BeginWork` | apps/api/src/plugins/idempotency.ts:323-332 | connect and BEGIN; a failed BEGIN gives the connection back and goes on to release the claim |
| `Idempotency.Plugin.PreHandler` | apps/api/src/plugins/idempotency.ts:231-307 | the whole preHandler, also with a prune between CLAIM and FETCH, performs exactly the protocol events it is made of |
| `Idempotency.Plugin.Enter` | apps/api/src/plugins/idempotency.ts:231-237 | a request that comes in either holds the claim or has lost it |
| `Idempotency.Plugin.LookUp` | apps/api/src/plugins/idempotency.ts:237-307 | what follows the first CLAIM, with the second CLAIM and the RECLAIM |
| `Idempotency.PreHandlingRuns` | apps/api/src/plugins/idempotency.ts:231-307 | the event history of a preHandler is the composition of its statements |
| `Idempotency.Plugin.RunHandler` | apps/api/src/plugins/idempotency.ts:429-434 | the handler's statements and nested blocks, run through savepoints on the request's connection, are the event of the protocol |
| `Idempotency.Plugin.FailLookup` | apps/api/src/plugins/idempotency.ts:231-299 | a CLAIM, FETCH or RECLAIM that throws ends the request with a 500 before it holds anything |
| `Idempotency.Plugin.Settle` | apps/api/src/plugins/idempotency.ts:358-402 | STORE for an owned success, a 500 when STORE meets an aborted transaction, ROLLBACK and 409 for a lost claim, ROLLBACK and release for a failure |
| `Idempotency.Plugin.FailSettle` | apps/api/src/plugins/idempotency.ts:367-401 | a first statement that throws for a reason from outside: a 500 and the one release of `finally` |
| `Idempotency.Plugin.CommitTransaction` | apps/api/src/plugins/idempotency.ts:376-379 | COMMIT publishes the stored response and the business writes in one step, or neither |
| `Idempotency.Plugin.AbortRequest` | apps/api/src/plugins/idempotency.ts:442-454 | an aborted request rolls back and then releases its claim; if the rollback fails the claim is left to age |
| `Idempotency.Plugin.ReleaseClaim` | apps/api/src/plugins/idempotency.ts:154-158 | RELEASE deletes the row only under its own token and may fail without harm |
| `Idempotency.Plugin.PruneExpired` | apps/api/src/plugins/idempotency.ts:163-171 | the nightly prune deletes an expired row whether or not it holds a response |
| `IdempotencyOutcomes.AnswersLastThirtyDays` | apps/api/src/plugins/idempotency.ts:163-171 | over every history: up to 2 592 000 000 ms after the CLAIM under which it was stored, an answer stays as it is, nothing more is committed under the key, and every later request with the same body that is answered gets exactly it, unless one of its own statements throws; nothing is assumed about prunes |
| `IdempotencyOutcomes.UnexpiredAnswerStays` | apps/api/src/plugins/idempotency.ts:145-150 | from every state of the protocol, the same up to the expiry of the row |
| `IdempotencyOutcomes.PruneActsExactlyAfterThirtyDays` | apps/api/src/plugins/idempotency.ts:163-171 | in every history a prune takes the row away if and only if thirty days have passed since the last CLAIM that took it and no STORE holds it, and otherwise changes nothing |
| `IdempotencyOutcomes.RowsChangeExactly` | apps/api/src/plugins/idempotency.ts:105-158 | a row goes only by a prune or a release, changes its hash and its expiry only by a CLAIM, and its response only by a COMMIT |
| `IdempotencyOutcomes.UndisturbedIsDecided` | apps/api/src/plugins/idempotency.ts:212-308 | the outcome of an undisturbed preHandler, from every state: it works if and only if the row is free, or of the same body with an owner silent for 30 000 ms; the 422, the replay with exactly the stored bytes and the 409 each have their own exact condition, and what is then stored |
| `IdempotencyOutcomes.SettleIsDecided` | apps/api/src/plugins/idempotency.ts:358-402 | the outcome of an undisturbed settle: an owned success is stored and its writes committed as one; a lost claim is a 409, an aborted transaction a 500 and a failure its own status, all three committing nothing; and the key is freed exactly after an owned failure |
| `IdempotencyOutcomes.AbortIsDecided` | apps/api/src/plugins/idempotency.ts:442-454 | an aborted request commits nothing, gives its connection back once, and frees the key if and only if it still owns it and its ROLLBACK got through |
| `IdempotencyOutcomes.BeginIsDecided` | apps/api/src/plugins/idempotency.ts:323-347 | for each way connect and BEGIN can end: whether the request works, how often it connected and released, and when the key is freed |
| `IdempotencyOutcomes.CommitIsDecided` | apps/api/src/plugins/idempotency.ts:376-379 | for each fate of a COMMIT: whether writes and response are published, the row it leaves, what the client is told, and how the connection comes back |
| `IdempotencyOutcomes.ClaimIsDecided` | apps/api/src/plugins/idempotency.ts:105-117 | in every state what a CLAIM comes to: taken for thirty days, lost, or, the second time, told to wait |
| `IdempotencyOutcomes.FetchIsDecided` | apps/api/src/plugins/idempotency.ts:242-291 | in every state the five things a FETCH can find, each under its exact condition, with the window of 30 000 ms |
| `IdempotencyOutcomes.ReclaimIsDecided` | apps/api/src/plugins/idempotency.ts:295-307 | a RECLAIM takes the row if and only if it still carries the lock that was seen, and keeps its hash and expiry; otherwise the request is told to wait |
| `IdempotencyOutcomes.LookupFailureIsDecided` | apps/api/src/plugins/idempotency.ts:231-299 | a lookup that throws is a 500 exactly while the request is looking up |
| `IdempotencyOutcomes.SessionAfterBegin` | apps/api/src/plugins/idempotency.ts:323-332 | the state each end of connect and BEGIN leaves the connection in |
| `IdempotencyOutcomes.StoreFailureIsDecided` | apps/api/src/plugins/idempotency.ts:367-401 | a first statement of settle that throws: a 500, one release, nothing committed, the claim left, and the state of the connection |
| `IdempotencyOutcomes.RepliesAreDecided` | apps/api/src/plugins/idempotency.ts:429-440 | which replies a request can make |
| `IdempotencyOutcomes.WasAnsweredExactly` | apps/api/src/plugins/idempotency.ts:269-284 | the committed answer that a replay stands for, as one of the commits of the history |
| `IdempotencyOutcomes.CrashIsDecided` | apps/api/src/plugins/idempotency.ts:39-40 | what the end of the process leaves |
| `IdempotencyOutcomes.RetryAfterFailureWorks` | apps/api/src/plugins/idempotency.ts:394-397 | after a handler that failed the very next request works, whatever its body, under a claim that lasts thirty days again |
| `IdempotencyOutcomes.ReclaimDoesNotRenew` | apps/api/src/plugins/idempotency.ts:132-138 | a RECLAIM and the COMMIT after it leave the expiry where the first CLAIM put it |
| `IdempotencyOutcomes.ReclaimedAnswersMayGoAtOnce` | apps/api/src/plugins/idempotency.ts:114-138 | the input: an answer committed after a RECLAIM in the last millisecond of the row may be pruned at once, and the next request with the same body works again |
| `ConnectionPool.PooledRunsAreRuns` | apps/api/src/plugins/idempotency.ts:212-332 | whatever connections the pool hands out, and to whom, the server of every key goes through a history of the protocol, so every theorem about those holds there |
| `ConnectionPool.ConnectionsAreNeverShared` | apps/api/src/db/pool.ts:16-32 | in every history a connection at work is in nobody else's hands, and a resting one is idle or aborted: no request ever continues a transaction another one left open |
| `ConnectionPool.PoisonIsExactlySwallowing` | apps/api/src/plugins/idempotency.ts:367-401 | after any history without a fault from outside, a resting connection is inside an aborted transaction if and only if some request, under whatever key, worked on it whose handler's text swallows a failure and whose reply was a success |
| `ConnectionPool.SwallowingPoisons` | apps/api/src/plugins/idempotency.ts:399-401 | from every state such a request puts its connection back aborted |
| `ConnectionPool.PoisonLastsUntilCleared` | apps/api/src/plugins/idempotency.ts:323-330 | over every later history the connection stays in the pool, aborted, if and only if it neither idled out, nor broke, nor was drawn for a statement through the pool; BEGINs that fail on it change nothing |
| `ConnectionPool.PoisonIsConserved` | apps/api/src/plugins/idempotency.ts:399-401 | in every history the connections that came back aborted are those still resting so plus those that left the pool, so no more statements of other requests are refused than connections were poisoned |
| `ConnectionPool.WorksExactlyOnSoundConnections` | apps/api/src/plugins/idempotency.ts:231-332 | what is left of `NoKeyIsPoisoned` on such a pool: past the window an undisturbed request with the same hash gets to work if and only if every connection it draws is sound; otherwise it gets a 500, with the row as it was, or claimed if BEGIN was the statement that failed |
| `ConnectionPool.ReleaseFreesExactlyOnSoundConnection` | apps/api/src/plugins/idempotency.ts:334-347 | the release after a failed BEGIN frees the key if and only if the connection it draws is sound; otherwise the key stays locked for another window |
| `ConnectionPool.SoundStatementIsDecided` | apps/api/src/db/pool.ts:16-32 | in every state of the invariant: a statement drawn on an idle connection runs as the protocol says and leaves the connection there |
| `ConnectionPool.RefusedStatementIsDecided` | apps/api/src/db/pool.ts:16-32 | on any other it is refused: no row changes, its request ends with a 500 or, releasing, with its verdict, and the connection leaves the pool |
| `ConnectionPool.DueIsDecided` | apps/api/src/plugins/idempotency.ts:231-347 | which statements go through the pool, and from which phase of a request |
| `ConnectionPool.BeginIsDecided` | apps/api/src/plugins/idempotency.ts:323-332 | BEGIN takes an idle connection out for its request, leaves an aborted one in the pool and loses a broken one; in the last two cases the request goes on to release its claim |
| `ConnectionPool.ConnectionsComeBack` | apps/api/src/plugins/idempotency.ts:399-401 | a connection comes back exactly when the request at work on it ends, in the state of its session, and not at all when it broke |
| `ConnectionPool.NothingElseComesBack` | apps/api/src/plugins/idempotency.ts:399-401 | in no other case does a connection come back |
| `ConnectionPool.OwnIsDecided` | apps/api/src/plugins/idempotency.ts:358-402 | what needs no connection from the pool is the step of the protocol on the server of its key alone |
| `ConnectionPool.RestIsDecided` | apps/api/src/db/pool.ts:16-32 | a new connection is fresh and idle, and one that idles out leaves |
| `ConnectionPool.NextKeepsInv` | apps/api/src/db/pool.ts:16-32 | every event of pool and server keeps the invariant: exclusive connections, and every aborted one accounted for by the request that left it so |
| `SubmitIntent.OneKeyOneCommit` | apps/mobile/src/lib/intentWrite.ts:56-79 | however requests and answers are lost, delayed or retried, at most one commit happens under one key while no stored answer was pruned |
| `SubmitIntent.AcceptedMeansExactlyOnce` | apps/mobile/src/lib/intentWrite.ts:62-65 | `send` resolves only for a body that was committed, exactly once, and with exactly the answer of that commit |
| `SubmitIntent.RefusedOutrightSavedNothing` | apps/mobile/src/lib/intentWrite.ts:74-75 | if the first answer under a key is a 4xx, nothing was saved under it and nothing ever will be |
| `SubmitIntent.RefusalIsSafeExactlyWhenFirst` | apps/mobile/src/lib/intentWrite.ts:12-14 | the comment that a 4xx means nothing was saved holds, for every 4xx status, if and only if no ambiguous failure came before it |
| `SubmitIntent.RefusalAfterAmbiguityMaySave` | apps/mobile/src/lib/intentWrite.ts:66-74 | for every positive number of ambiguous failures and every 4xx a run in which the refused intent is saved all the same: its first attempt arrives late, after the refusal unpinned the key |
| `SubmitIntent.OneIntentOneKey` | apps/mobile/src/lib/intentWrite.ts:60-61 | under one key come ambiguous failures and then at most one definite answer, after which the key is never pinned again; every request that reaches a server row carries that row's key, the retry after a refresh included |
| `SubmitIntent.OvertakenRetryMaySave` | apps/mobile/src/lib/intentWrite.ts:66-75 | a run of the protocol alone, without a delayed packet or a refusal from elsewhere: the retry gets the 409 of an attempt still at work, which unpins the key, and then that attempt commits |
| `SubmitIntent.AnswersAreHonest` | apps/mobile/src/lib/apiClient.ts:348-391 | the answer of the awaited request agrees with the server: a success was committed with these bytes, a 4xx of this request committed nothing |
| `SubmitIntent.NextKeepsInv` | apps/mobile/src/lib/apiClient.ts:348-391 | every event of handset, network and server keeps the end-to-end invariant |
| `SubmitIntent.EarlyRefusalKeepsInv` | apps/mobile/src/lib/apiClient.ts:362-379 | a refusal before the claim, or a 401 that leads to the refresh, leaves no trace on the server |
| `SubmitIntent.IntentWriter.NeedsKey` | apps/mobile/src/lib/intentWrite.ts:60 | the look of `??=` at the key |
| `SubmitIntent.IntentWriter.Assign` | apps/mobile/src/lib/intentWrite.ts:60 | the assignment of `??=`, which replaces whatever was pinned meanwhile |
| `SubmitIntent.IntentWriter.Pin` | apps/mobile/src/lib/intentWrite.ts:60 | with no other send in between, a pinned key is kept and otherwise the freshly minted one is pinned |
| `SubmitIntent.IntentWriter.Settle` | apps/mobile/src/lib/intentWrite.ts:62-75 | the verdict of an answer by its status and its error code, and that the key survives exactly the ambiguous failures |
| `SubmitIntent.SuccessIsAccepted` | apps/mobile/src/lib/intentWrite.ts:60-65 | in every reachable world: if the awaited request ended on its server with a fresh or replayed 2xx answer, `send` accepts exactly those bytes and unpins the key, and the next intent goes out under a key no request before it carried |
| `SubmitIntent.VerdictIsDecided` | apps/mobile/src/lib/intentWrite.ts:62-75 | accepted if and only if 200 <= status < 300; of the others ambiguous if and only if the request did not get through or the status is 500 or more, and refused otherwise; the key survives exactly an ambiguous failure |
| `SubmitIntent.FailuresAreDecided` | apps/mobile/src/lib/intentWrite.ts:66-75 | in every reachable world what any other answer of the awaited request comes to: the 409 and the 422 of the protocol refuse the intent, a failure is judged by its status, and a first 401 goes to the refresh |
| `SubmitIntent.LossesAreDecided` | apps/mobile/src/lib/apiClient.ts:348-379 | a lost answer is an ambiguous failure; a refusal before the claim never reaches the server and is judged by its status and code |
| `SubmitIntent.RefreshIsDecided` | apps/mobile/src/lib/apiClient.ts:369-390 | after a first 401 a renewed session sends the same body once more under the same key; any other end is a refusal |
| `SubmitIntent.TapIsDecided` | apps/mobile/src/lib/intentWrite.ts:59-61 | a tap while nothing is under way sends one request with its body, under the pinned key or a new one |
| `SubmitIntent.UndisturbedSendIsAccepted` | apps/mobile/src/lib/intentWrite.ts:56-65 | from every world without a pinned key, an undisturbed send is accepted with the answer of its one commit, under a key of its own |
| `SubmitIntent.TwoIntentsTwoKeys` | apps/mobile/src/lib/intentWrite.ts:60-65 | a run from the start: two intents, each accepted under its own key with one commit |
| `OverlappingSends.OneKeyExactlyWithoutOverlap` | apps/mobile/src/lib/intentWrite.ts:60 | any number of sends of one intent carry one key if and only if none of them started between the look of another one at the key and its assignment |
| `OverlappingSends.DoubleTapSendsTwoKeys` | apps/mobile/src/lib/intentWrite.ts:60-61 | the input: two sends that both saw no key send their requests under two |
| `OverlappingSends.RetryFindsItsKeyExactly` | apps/mobile/src/lib/intentWrite.ts:62-75 | over every history a pinned key is still pinned at the retry if and only if no send, of whatever key, got a definite answer meanwhile and no earlier look was followed by its assignment |
| `OverlappingSends.EventsAreDecided` | apps/mobile/src/lib/intentWrite.ts:56-79 | what each event does to every send and to the pinned key: a minted key is one no send carried, and a definite answer unpins whatever is pinned |
| `OverlappingSends.NextKeepsInv` | apps/mobile/src/lib/intentWrite.ts:56-79 | the requests under way carry exactly the minted keys |
| `RefreshTokens.FamiliesAreChains` | apps/api/src/modules/auth/service.ts:183-194 | in every history the tokens of one login form one acyclic chain with injective `replaced_by`, at most one of them is live, and it is the newest |
| `RefreshTokens.WalkVisitsTheRest` | apps/api/src/modules/auth/repo.ts:159-173 | the downward walk terminates and visits exactly the members of the family from the presented one on |
| `RefreshTokens.WalkFromRootIsFamily` | apps/api/src/modules/auth/repo.ts:159-173 | from the first token of a login the walk visits the whole family |
| `RefreshTokens.ReuseKillsTheFamily` | apps/api/src/modules/auth/repo.ts:143-158 | presenting any revoked token leaves no live member in its family, although the walk only goes down |
| `RefreshTokens.DeadForEver` | apps/api/src/modules/auth/service.ts:150-155 | a dead family stays dead under every later login, refresh, logout, reset and deactivation |
| `RefreshTokens.ReuseIsFinal` | apps/api/src/modules/auth/service.ts:166-171 | after a reuse, and whatever happens later, every member of the family is answered TOKEN_REUSED |
| `RefreshTokens.LiveTokensRotate` | apps/api/src/modules/auth/service.ts:183-201 | a live, unexpired token of an active employee rotates, and its successor is then the one live token of the family |
| `RefreshTokens.RefreshIsDecided` | apps/api/src/modules/auth/service.ts:156-181 | rotated if and only if the token is known, unrevoked and not yet expired and its employee active; each other verdict has its own exact condition, and a token is expired from the very millisecond of its expiry |
| `RefreshTokens.RowsEndExactly` | apps/api/src/modules/auth/service.ts:166-181 | over every event a row keeps everything but that it may end, and it ends exactly when the event says so: its own rotation, a reuse in its family, an inactive employee, logout and the revocations of an employee; an expired token changes nothing |
| `RefreshTokens.RowsBeginExactly` | apps/api/src/modules/auth/service.ts:183-194 | a row is added exactly by an allowed login and by a rotation, live, under a new id, for 5 184 000 000 ms, as the first of a family or the successor of the presented one |
| `RefreshTokens.ActiveExactly` | apps/api/src/modules/auth/service.ts:176-181 | who counts as active is moved by deactivation and activation alone |
| `RefreshTokens.ExpiryIsFinal` | apps/api/src/modules/auth/service.ts:172-175 | over every history: once all tokens of a login have expired no refresh ever adds one to it |
| `RefreshTokens.NextKeepsInv` | apps/api/src/modules/auth/service.ts:108-238 | login, refresh, logout, password change, deactivation and activation keep the forest of chains |
| `RefreshTokens.TokenTable.RevokeChainFrom` | apps/api/src/modules/auth/repo.ts:159-173 | the loop down `replaced_by` revokes exactly the rows of the walk, and the newly revoked ones it returns, at most one, are exactly the live ones it met |
| `RefreshTokens.TokenTable.RevokeAllForEmployee` | apps/api/src/modules/auth/repo.ts:176-184 | revokes every token of the employee and no other |
| `RefreshTokens.TokenTable.InsertRefreshToken` | apps/api/src/modules/auth/repo.ts:125-133 | a new row under a fresh id |
| `RefreshTokens.TokenTable.IssueForLogin` | apps/api/src/modules/auth/service.ts:108-139 | a successful login starts a family of one; a refused one changes nothing |
| `RefreshTokens.TokenTable.RefreshToken` | apps/api/src/modules/auth/service.ts:156-207 | the four verdicts of refresh in the source's order, each with its effect on the table, keeping the invariant |
| `RefreshTokens.TokenTable.RevokeByHash` | apps/api/src/modules/auth/repo.ts:187-192 | logout revokes exactly the presented token |
| `TokenRaces.SweepsAreCompleteExactlyWhenNothingWasMinted` | apps/api/src/modules/auth/repo.ts:143-184 | statement by statement, in every reachable state: a reuse revokes its whole family, and a password change all tokens of its employee, if and only if no such token was minted since the snapshot of the UPDATE and is still live |
| `TokenRaces.QuietSweepsAreComplete` | apps/api/src/modules/auth/repo.ts:143-184 | whatever else happens between snapshot and update, without a rotation or a login of what it is meant for a sweep misses nothing |
| `TokenRaces.UndisturbedSweepIsOneStep` | apps/api/src/modules/auth/repo.ts:159-184 | with no rotation in its scope under way a sweep is exactly the one step `RefreshTokens` makes of it |
| `TokenRaces.RotationInFlightDecides` | apps/api/src/modules/auth/repo.ts:96-115 | a rotation of the family's tip under way at the snapshot decides: abandoned, the reuse kills the family; committed, its successor lives on |
| `TokenRaces.TheRaceIsReachable` | apps/api/src/modules/auth/service.ts:156-194 | a run after which the first token of a login can be presented again while its successor is being rotated |
| `TokenRaces.SnapshotIsOk` | apps/api/src/modules/auth/repo.ts:161-165 | a fresh snapshot chooses every live row the sweep is meant for, and no other row |
| `TokenRaces.LocksExactly` | apps/api/src/modules/auth/repo.ts:96-115 | a rotation gets under way exactly for a usable token of an active employee that no other rotation holds |
| `TokenRaces.RowsChangeExactly` | apps/api/src/modules/auth/repo.ts:143-184 | statement by statement: which rows an event ends, and that rows are added exactly by a committed rotation and an allowed login |
| `TokenRaces.SuccessorsAreMinted` | apps/api/src/modules/auth/service.ts:183-194 | the row a committed rotation adds, good for sixty days |
| `TokenRaces.TransactionsMoveExactly` | apps/api/src/modules/auth/repo.ts:96-184 | which rotations and sweeps are under way after each event; an update waits exactly for the rotations that hold a row it chose |
| `TokenRaces.ActiveExactly` | apps/api/src/modules/auth/service.ts:176-181 | who counts as active is moved by nothing but its own statement |
| `TokenRaces.NextKeepsInv` | apps/api/src/modules/auth/service.ts:156-238 | every lock, commit, snapshot, update, login and logout keeps the invariant |
| `RefreshClient.NeverReusesAToken` | apps/mobile/src/lib/apiClient.ts:154-157 | with any number of overlapping calls the single-flight client never presents a revoked token, and while no refresh is in flight the stored token is the one live token of its login |
| `RefreshClient.LostAnswerEndsTheLogin` | apps/mobile/src/lib/apiClient.ts:325-328 | the guarantee needs the answer: after a rotation whose answer is lost the next refresh is a TOKEN_REUSED that ends the whole login |
| `RefreshClient.ElsewhereLeavesUsAlone` | apps/api/src/modules/auth/service.ts:156-207 | the exact condition: an event elsewhere leaves the live token of this login alone if and only if it is neither a rotation or reuse in this family, nor the logout of its live token, nor a password change, deactivation or inactive refresh of its employee |
| `RefreshClient.OneRetryExactlyWhenRenewed` | apps/mobile/src/lib/apiClient.ts:369-391 | over every history a call sends one request, and exactly one more if and only if the refresh it waited for renewed the session |
| `RefreshClient.LoggedOutExactlyWhenRefused` | apps/mobile/src/lib/apiClient.ts:312-334 | over every history the stored session is gone if and only if the server refused a refresh; lost answers and events elsewhere leave it |
| `RefreshClient.CallsMoveExactly` | apps/mobile/src/lib/apiClient.ts:353-391 | every move of a call, and that there is no other |
| `RefreshClient.FlightMovesExactly` | apps/mobile/src/lib/apiClient.ts:300-343 | every move of the shared refresh, and that there is no other |
| `RefreshClient.SessionMovesExactly` | apps/mobile/src/lib/apiClient.ts:322-333 | the stored session is replaced by a rotation, cleared by a refusal, and touched by nothing else |
| `RefreshClient.NextKeepsInv` | apps/mobile/src/lib/apiClient.ts:300-343 | every step of the client and the server keeps: the stored token is live unless the answer that replaces it is on its way |
| `RefreshClient.ApiClient.RefreshOnce` | apps/mobile/src/lib/apiClient.ts:336-343 | a refresh in flight is shared, otherwise one starts |
| `RefreshClient.ApiClient.Reply` | apps/mobile/src/lib/apiClient.ts:353-391 | a first 401 joins the refresh, a second one is returned, anything else ends the call |
| `RefreshClient.ApiClient.BeginRefresh` | apps/mobile/src/lib/apiClient.ts:300-311 | without a session the refresh ends logged out, otherwise it presents the stored token |
| `RefreshClient.ApiClient.EndRefresh` | apps/mobile/src/lib/apiClient.ts:312-334 | a rotation is saved, a completed refusal clears the session, and no answer leaves it as it was |
| `RefreshClient.ApiClient.SettleRefresh` | apps/mobile/src/lib/apiClient.ts:337-341 | the slot empties and every waiting call resumes with the outcome |
| `NestedTransactions.Connection.Execute` | apps/api/src/db/tx.ts:22-39 | any tree of nested blocks, run through savepoints that all bear one name on whatever stack it finds, has exactly the all-or-nothing meaning of its blocks and leaves the savepoint stack as it found it |
| `NestedTransactions.Connection.WithTransaction` | apps/api/src/db/tx.ts:27-38 | SAVEPOINT, body, RELEASE or ROLLBACK TO and RELEASE together mean one all-or-nothing block |
| `NestedTransactions.Connection.WithOwnTransaction` | apps/api/src/db/tx.ts:40-54 | the outermost block commits the meaning of its body, or nothing |
| `NestedTransactions.WorkOnlyGrows` | apps/api/src/db/tx.ts:11-12 | no block, failed or not, undoes what its caller wrote before it, and what it writes does not depend on that |
| `NestedTransactions.BlocksAreAllOrNothing` | apps/api/src/db/tx.ts:29-37 | a nested block returns exactly when its body returns on a usable transaction, and then keeps all its writes; otherwise it keeps none and leaves the transaction usable |
| `NestedTransactions.FailedBlocksLeaveNoTrace` | apps/api/src/db/tx.ts:33-37 | a caller that catches a failed block goes on as if it had never run |
| `NestedTransactions.ReportIsFalseExactlyWhenSwallowed` | apps/api/src/db/tx.ts:42-50 | the outermost block reports success for work it did not save if and only if its body, by its text alone, writes something that stays and then swallows a failed statement that no nested block contained |
| `NestedTransactions.KeepsIsDecided` | apps/api/src/db/tx.ts:22-54 | the static reading of whether a body ends with something written agrees with every run of it |
| `NestedTransactions.NestedBlocksReportTruthfully` | apps/api/src/db/tx.ts:29-32 | a nested block never does so: it returns exactly when its body ends clean, with all its work |
| `NestedTransactions.FateIsDecided` | apps/api/src/db/tx.ts:22-54 | the static reading of a body as clean, threw, threw on an aborted transaction or swallowed agrees with every run of it |
| `NestedTransactions.SwallowedFailureIsNotReported` | apps/api/src/db/tx.ts:44-46 | a concrete body for which the outermost block returns and nothing is saved |
| `NestedTransactions.SoundProgramsKeepEveryRow` | apps/api/src/db/tx.ts:22-54 | a program in which nothing fails keeps every row of its text once, in order, however deeply nested, runs no handler, and the outermost block commits exactly these rows |
| `NestedTransactions.HandlersGoOn` | apps/api/src/db/tx.ts:29-37 | after a throw or a failed statement nothing of the rest runs; a handler on a usable transaction goes on with what was written before |
| `CanonicalJson.CanonicalTextDecidesSameness` | packages/shared/src/canonical.ts:26-79 | two accepted values have one canonical text if and only if they are equal up to key order, dropped undefined properties and the sign of zero |
| `CanonicalJson.CanonicalTextParses` | packages/shared/src/canonical.ts:73-79 | the canonical text is JSON that a parser reads back, to the end, as the value's normal form, which is the same value |
| `CanonicalJson.AcceptsExactlyThePrintable` | packages/shared/src/canonical.ts:26-66 | the refusals are exact: depth over 512, non-finite numbers, undefined in arrays or at the top, functions and symbols, anywhere in the value |
| `CanonicalJson.PrintsTheNormalForm` | packages/shared/src/canonical.ts:26-66 | what `canonicalise` prints is the rendering of the normal form: sorted keys, nothing undefined, one zero |
| `CanonicalJson.ParsesBack` | packages/shared/src/canonical.ts:44-60 | parsing the rendering of a normal form returns it and leaves what follows |
| `CanonicalJson.RenderingIsInjective` | packages/shared/src/canonical.ts:44-60 | different normal forms print differently |
| `CanonicalJson.SameHaveOneNorm` | packages/shared/src/canonical.ts:53-58 | values that are the same have one normal form, whatever the order of their properties |
| `CanonicalJson.OneNormMeansSame` | packages/shared/src/canonical.ts:53-58 | values with one normal form are the same |
| `CanonicalBytes.NormalKeysAscend` | packages/shared/src/canonical.ts:53-55 | at every depth of every normal form: if one key differs from another first at a position where its code unit is smaller, or is a proper prefix of it, its property stands first |
| `CanonicalBytes.ObjectText` | packages/shared/src/canonical.ts:53-59 | the text of an accepted object, byte for byte: a brace, the properties of its normal form in that order without those that are undefined, each as quoted key, colon and text, separated by commas, a brace |
| `CanonicalBytes.ArrayText` | packages/shared/src/canonical.ts:46-48 | the text of an accepted array: the texts of its items in order between brackets, separated by commas |
| `CanonicalBytes.TwoKeysAreWritten` | packages/shared/src/canonical.ts:53-59 | an object that names b before a is written with a first |
| `CanonicalBytes.WordsAreWritten` | packages/shared/src/canonical.ts:33-45 | null, true and false |
| `CanonicalBytes.StringsAreWritten` | packages/shared/src/canonical.ts:31-32 | a string is written between quotes, escaped |
| `CanonicalBytes.RefusalsAreTold` | packages/shared/src/canonical.ts:26-66 | which of the refusals a value meets |
| `CanonicalBytes.DepthCapIsExact` | packages/shared/src/canonical.ts:26-29 | arrays nested 512 deep are accepted and 513 deep refused |
| `JsonText.StringReadsBack` | packages/shared/src/canonical.ts:31-32 | a quoted string (section 7 of RFC 8259) reads back as the string, with what follows left over, for every sequence of UTF-16 code units |
| `JsonText.EscapedIsWellFormed` | packages/shared/src/canonical.ts:31-32 | an escaped string holds no lone surrogate, so hashing its UTF-8 bytes loses nothing |
| `JsonText.NumberReadsBack` | packages/shared/src/canonical.ts:16-24 | a printed number reads back as itself in all four layouts of Number::toString, with the sign of zero forgotten |
| `JsonText.LayoutDenotesNumber` | packages/shared/src/canonical.ts:23 | the plain, padded, small and exponent layouts all denote the number they were made from |
| `CanonicalBytes.UnitsAreEscaped` | packages/shared/src/canonical.ts:31-32 | the escape of every code unit: the seven short ones, four hex digits for other controls and for lone surrogates, and itself otherwise |
| `CanonicalBytes.StringsAreEscaped` | packages/shared/src/canonical.ts:31-32 | a string is escaped unit by unit, and a surrogate is written as it is exactly within a pair |
| `CanonicalBytes.WholeNumbersAreWritten` | packages/shared/src/canonical.ts:16-24 | integers below 10^21 are written with all their digits |
| `CanonicalBytes.FractionsAreWritten` | packages/shared/src/canonical.ts:16-24 | a point inside the digits is written where it stands |
| `CanonicalBytes.SmallNumbersAreWritten` | packages/shared/src/canonical.ts:16-24 | down to 10^-6 leading zeros are written out |
| `CanonicalBytes.OthersAreWrittenWithExponent` | packages/shared/src/canonical.ts:16-24 | everything else is written with mantissa, sign and exponent |
| `CanonicalBytes.ZeroIsWritten` | packages/shared/src/canonical.ts:16-24 | both zeros are written 0 |
| `CanonicalBytes.LargeExamples` | packages/shared/src/canonical.ts:16-24 | 10^20 and 10^21 on either side of the boundary |
| `CanonicalBytes.SmallExamples` | packages/shared/src/canonical.ts:16-24 | 10^-6 and 10^-7 on either side of the boundary |
| `Contracts.TermsStayDisjoint` | apps/api/src/modules/contracts/service.ts:220-325 | with locking, check, write and commit interleaved in any way, uncancelled terms of one customer are pairwise disjoint as inclusive ranges in every reachable state |
| `Contracts.NoTransactionLosesTheRace` | apps/api/src/modules/contracts/service.ts:255-260 | the exclusion-constraint error is never raised |
| `Contracts.NeverExcluded` | apps/api/src/modules/contracts/service.ts:308-313 | a checked term meets neither a committed term nor the uncommitted row of another transaction |
| `Contracts.RenewalStartsTheDayAfter` | apps/api/src/modules/contracts/repo.ts:213-235 | after the customer's last term a renewal is recorded exactly when it starts the day after that term ends or later |
| `Contracts.CreateCommitsExactlyWhenWelcome` | apps/api/src/modules/contracts/service.ts:227-272 | an uninterrupted create is recorded if and only if its customer is active and its term is ordered and meets no uncancelled term, and otherwise the table stays as it was |
| `Contracts.PatchIsDecided` | apps/api/src/modules/contracts/service.ts:280-325 | the outcome of an undisturbed patch, from every state: missing, stale, cancelled, dates out of order, a day that is taken when a date was sent, or committed, each under its own exact condition; a committed one stores exactly the dates sent, keeps the others and the customer, and adds one to the version, any other changes no contract |
| `Contracts.OnePatchPerCopy` | apps/api/src/modules/contracts/service.ts:284-289 | over every history: of two patches of one contract from the same version at most one is ever committed |
| `Contracts.CancelIsDecided` | apps/api/src/modules/contracts/service.ts:332-346 | the outcome of an undisturbed cancel: missing, already cancelled, or committed with the next version and nothing else changed |
| `Contracts.CreateIsDecided` | apps/api/src/modules/contracts/service.ts:227-272 | the outcome of an undisturbed create in terms of days: refused for an inactive customer or dates out of order, duplicate if and only if some day of the term is covered already |
| `Contracts.NoDayTwice` | apps/api/src/modules/contracts/repo.ts:213-235 | in every history no day is covered by two uncancelled terms of one customer |
| `Contracts.OverlapIsSharing` | apps/api/src/modules/contracts/repo.ts:219-235 | the overlap of two terms means a day in both |
| `Contracts.ClearIsDaysFree` | apps/api/src/modules/contracts/repo.ts:219-235 | the check passes if and only if no day of the term is covered by another uncancelled contract of the customer |
| `Contracts.NumbersAreDrawnOneAtATime` | apps/api/src/modules/contracts/service.ts:241-242 | in every history at most one open create holds a number that is not committed |
| `Contracts.WriteIsDecided` | apps/api/src/modules/contracts/service.ts:244-260 | the write is refused if and only if an uncancelled row shares a day with another one of its customer, committed or pending elsewhere; otherwise it is pending until COMMIT |
| `Contracts.WaitingClimbs` | apps/api/src/modules/contracts/service.ts:280-306 | whoever holds the lock a transaction waits for itself waits, if at all, for a lock later in the order contract, customer, number |
| `Contracts.WaitChainsAreShort` | apps/api/src/modules/contracts/service.ts:280-306 | no chain of waiting transactions is longer than four, so the wait graph has no cycle |
| `Contracts.MovesExactlyWhenUnheld` | apps/api/src/modules/contracts/service.ts:280-306 | an open transaction can run a statement if and only if nobody else holds the lock it needs next |
| `Contracts.SomebodyMoves` | apps/api/src/modules/contracts/service.ts:227-346 | while any transaction is open, some transaction can run its next statement |
| `Contracts.NextKeepsInv` | apps/api/src/modules/contracts/repo.ts:198-321 | every statement of every transaction keeps the invariant (disjoint terms, exclusive locks, and what each transaction may rely on at its stage) |
| `Contracts.ContractDesk.LockContractRow` | apps/api/src/modules/contracts/service.ts:282-295 | lockContract and its refusals: missing, stale version, cancelled, ends the wrong way round; a missing half of the term comes from the locked row |
| `Contracts.ContractDesk.LockCustomerRow` | apps/api/src/modules/contracts/repo.ts:198-204 | the customer row is locked once free; a create refuses a missing or inactive customer |
| `Contracts.ContractDesk.FindOverlapping` | apps/api/src/modules/contracts/repo.ts:219-235 | returns the first-starting uncancelled term of the customer that meets the range and is not the excluded one, or None exactly when there is none |
| `Contracts.ContractDesk.CheckOverlap` | apps/api/src/modules/contracts/service.ts:233-239 | the transaction goes on exactly when its range is clear |
| `Contracts.ContractDesk.AllocateNumber` | apps/api/src/modules/contracts/service.ts:241-242 | after the check; a refused create burns no number |
| `Contracts.ContractDesk.WriteContract` | apps/api/src/modules/contracts/repo.ts:268-309 | the insert, the update and the cancelling update never need the constraint |
| `Contracts.ContractDesk.CommitWork` | apps/api/src/modules/contracts/service.ts:227-272 | COMMIT publishes the row and drops every lock |
| `Contracts.ContractDesk.CreateContract` | apps/api/src/modules/contracts/service.ts:227-272 | an uninterrupted create performs exactly its five statements and the commit |
| `Contracts.ContractDesk.PatchContract` | apps/api/src/modules/contracts/service.ts:280-325 | an uninterrupted patch performs exactly its statements; the customer lock and the overlap check come in only when dates move |
| `Contracts.ContractDesk.CancelContract` | apps/api/src/modules/contracts/service.ts:332-346 | an uninterrupted cancel performs exactly its statements |
| `PingBuffer.NoPingIsLost` | apps/mobile/src/location/buffer.native.ts:86-126 | with enqueues and any number of flushes interleaved, and the app dying anywhere, also between the 200 and the delete: the pings the server answered 200 for are the first n ever enqueued, those removed are a prefix of these, and the table holds exactly the rest of the history, in order |
| `PingBuffer.UnansweredRowsStay` | apps/mobile/src/location/buffer.native.ts:99-108 | a ping the server has not answered for is still stored |
| `PingBuffer.NextKeepsInv` | apps/mobile/src/location/buffer.native.ts:89-126 | every read, answer, delete, failure and death keeps the invariant, and what was delivered stays delivered |
| `PingBuffer.DeleteTakesTheFront` | apps/mobile/src/location/buffer.native.ts:109-115 | deleting a batch, even one that overlaps a batch removed meanwhile, takes a front of the table and nothing else |
| `PingBuffer.LaterRowsSurvive` | apps/mobile/src/location/buffer.native.ts:115 | a row added after the batch was read is never removed with it |
| `PingBuffer.EventsAreDecided` | apps/mobile/src/location/buffer.native.ts:86-126 | in every reachable state what each event does to table, flushes and history, and that it does nothing else: a read takes the oldest rows, as many as asked for or all, and the delete of an answered flush takes away exactly its rows |
| `PingBuffer.AcknowledgedIsPruned` | apps/mobile/src/location/buffer.native.ts:105-115 | over every history: once the server answered 200 for a batch, and whatever else goes on before its delete, the delete leaves none of the batch stored |
| `PingBuffer.FlushReportIsDecided` | apps/mobile/src/location/buffer.native.ts:89-123 | a flush completes if and only if there was nothing to send or the server answered 200, and reports verdicts only then |
| `PingBuffer.FlushAllIsDecided` | apps/mobile/src/location/buffer.native.ts:130-144 | for any number k of leading acknowledgements among the 25 requests: k batches or all rows go, and the report is that of the failed round, or of the last round that carried rows |
| `PingBuffer.BatchesHoldTwoHundred` | apps/mobile/src/location/buffer.native.ts:87 | a batch holds 200 rows unless fewer were asked for |
| `PingBuffer.FlushAllDrains` | apps/mobile/src/location/buffer.native.ts:130-144 | with every round acknowledged flushAll removes exactly min(n, 25 batches) |
| `PingBuffer.DrainsWholeBatches` | apps/mobile/src/location/buffer.native.ts:130-144 | with any answers it removes one full batch per leading acknowledgement until the table is empty |
| `PingBuffer.RemovesTheBatch` | apps/mobile/src/location/bufferStore.native.ts:50-62 | deleting the ids of the oldest rows deletes exactly the front of the table |
| `PingBuffer.Buffer.Append` | apps/mobile/src/location/bufferStore.native.ts:42-48 | a new row at the end under an id never used before |
| `PingBuffer.Buffer.Remove` | apps/mobile/src/location/bufferStore.native.ts:58-62 | the delete keeps exactly the rows it does not name, in order |
| `PingBuffer.Buffer.Flush` | apps/mobile/src/location/buffer.native.ts:89-123 | the report of a flush, and that rows leave the table exactly when the round completed |
| `PingBuffer.Buffer.Round` | apps/mobile/src/location/buffer.native.ts:138-141 | one round, seen from the table flushAll started with |
| `PingBuffer.Buffer.FlushAll` | apps/mobile/src/location/buffer.native.ts:130-144 | the loop of at most 25 rounds leaves exactly what the drain specification leaves and reports the last round that carried rows |
| `CompanyList.ListingIsExact` | apps/api/src/modules/companies/repo.ts:272-303 | the listing shows each active in-scope row below the cursor exactly once, newest first |
| `CompanyList.PageIsDecided` | apps/api/src/modules/companies/service.ts:128-140 | one page in numbers: at most limit rows, newest first and the higher id first among equals; a next cursor if and only if a due row is missing, and then the page is full, the cursor names its last row, and the missing rows are exactly those older than it |
| `CompanyList.NothingTwice` | apps/api/src/modules/companies/service.ts:128-140 | following nextCursor shows no row twice and stays strictly newest first, whatever happens to the table between pages and for any page sizes |
| `CompanyList.OnlyVisibleRows` | apps/api/src/modules/companies/service.ts:128-140 | every row shown was active and in scope at some page |
| `CompanyList.NothingMissed` | apps/api/src/modules/companies/service.ts:128-140 | a row active and in scope throughout is shown once nextCursor is null |
| `CompanyList.RestOfListing` | apps/api/src/modules/companies/repo.ts:284-290 | below the last row of a page the listing is what the page left |
| `CompanyList.PagesAreTheListing` | apps/api/src/modules/companies/service.ts:128-140 | over an unchanging table the pages concatenate to the whole listing, and the walk ends |
| `Ledger.RunningIsBalanceAsOf` | apps/api/src/modules/companies/repo.ts:393-396 | the window sum of a row is the effect of every document recorded up to it, computed from the documents in any order |
| `Ledger.NewestRunningIsTheBalance` | apps/api/src/modules/companies/repo.ts:331-344 | the newest running balance is confirmed sales minus collected payments, to the paisa |
| `Ledger.NeighboursDifferByEffect` | apps/api/src/modules/companies/repo.ts:336-340 | adjacent balances differ by exactly the newer row's effect |
| `Ledger.VoidingShifts` | apps/api/src/modules/companies/repo.ts:344-346 | voiding a document changes the balance as of any moment by its effect from its own moment on, and not before |
| `Ledger.VoidingMovesNewerRowsOnly` | apps/api/src/modules/companies/repo.ts:371 | voiding a document keeps every row of the displayed ledger in its place and moves its own row and all newer ones by its effect, and no older row |
| `Ledger.NewDocumentsLeaveOlderRows` | apps/api/src/modules/companies/repo.ts:393-396 | a new document leaves every older row in the ledger, at a place the lemma returns, with its balance unchanged |
| `Ledger.RowsAreDecided` | apps/api/src/modules/companies/repo.ts:354-396 | the rows are exactly the documents that are not drafts or uncollected, with amount, void mark and effect, in strict order, and each balance is its effect plus the balance below |
| `CashHandovers.OneRowPerDay` | apps/api/src/modules/cash/service.ts:113-147 | at most one row per employee and day, and status decides exactly which of confirmed amount, owner note and answer time are null |
| `CashHandovers.TheTrailTellsEverything` | apps/api/src/modules/cash/repo.ts:364-370 | after any history the row and its audit trail reconstruct every amount ever declared and who amended it, every sign-off, and every reversal with who and why, in order; of the signers they name the last |
| `CashHandovers.AnswerForgetsExactlyWhenOverwriting` | apps/api/src/modules/cash/service.ts:269-311 | an accepted confirmation or dispute makes a record that told all signers forget one if and only if the row names somebody else before it; the name on the row is always the last signer |
| `CashHandovers.SignersAreToldExactlyWhenNoneIsOverwritten` | apps/api/src/modules/cash/repo.ts:371-386 | after any history all signers can be read off row and trail if and only if no accepted sign-off ever replaced the name of another signer |
| `CashHandovers.SignersAreDeterminedExactlyByOneSigning` | apps/api/src/modules/cash/repo.ts:500-529 | no other history leaves the same row and trail if and only if at most one sign-off was made: after a second one the first could have been anybody's |
| `CashHandovers.TwoSignersOneRecord` | apps/api/src/modules/cash/repo.ts:371-386 | a day confirmed, reopened and confirmed again leaves the same rows and the same audit log whoever confirmed it first |
| `CashHandovers.HistoryGrows` | apps/api/src/modules/cash/repo.ts:121-139 | what row and trail tell stays in step with the history, one fact at a time, and the name on the row is the last signer |
| `CashHandovers.StoryGrows` | apps/api/src/modules/cash/repo.ts:500-529 | one accepted action extends the story told by row and trail by exactly what happened, with who amended and who reopened |
| `CashHandovers.AmountsMoveOnlyWhileOpen` | apps/api/src/modules/cash/service.ts:161-181 | in every reachable state a declared amount changes only by an amendment of its own employee, while submitted, on a fresh copy |
| `CashHandovers.StaleCopiesAreRefused` | apps/api/src/modules/cash/service.ts:178-180 | once an action on a row was accepted, an amendment made from a copy taken before it is refused for ever, whatever happens in between |
| `CashHandovers.DeclareIsDecided` | apps/api/src/modules/cash/service.ts:113-147 | in every reachable state a declaration is accepted if and only if its day is today or one of the seven before and the employee has none for it, with each refusal exact and every stored field |
| `CashHandovers.AmendIsDecided` | apps/api/src/modules/cash/service.ts:155-193 | the four refusals of an amendment in order, each under its exact condition, and otherwise what is stored, kept and filed |
| `CashHandovers.AnswerIsDecided` | apps/api/src/modules/cash/service.ts:269-311 | a confirmation and a dispute are accepted exactly for a submitted day, and what each stores |
| `CashHandovers.ReopenIsDecided` | apps/api/src/modules/cash/service.ts:320-349 | a reopen is accepted exactly for an answered day; what leaves the row and what is filed |
| `CashHandovers.HistoryIsDecided` | apps/api/src/modules/cash/repo.ts:121-139 | every accepted action adds one fact to the history of its row and to no other, and nothing recorded is changed |
| `CashHandovers.NextKeepsInv` | apps/api/src/modules/cash/service.ts:113-349 | declare, amend, confirm, dispute and reopen keep the invariant |
| `CashHandovers.CashDesk.DeclareCash` | apps/api/src/modules/cash/service.ts:113-147 | the date bounds, the duplicate, and the new row |
| `CashHandovers.CashDesk.AmendCash` | apps/api/src/modules/cash/service.ts:155-193 | the four refusals in order, the patched row and its audit entry |
| `CashHandovers.CashDesk.ConfirmCash` | apps/api/src/modules/cash/service.ts:269-287 | only a submitted day can be confirmed, and what is then stored |
| `CashHandovers.CashDesk.DisputeCash` | apps/api/src/modules/cash/service.ts:295-311 | only a submitted day can be disputed, and what is then stored |
| `CashHandovers.CashDesk.ReopenCash` | apps/api/src/modules/cash/service.ts:320-349 | only an answered day can be reopened; the sign-off goes to the audit trail |
| `WorkWindow.NextWindowOpen` | apps/api/src/jobs/release-held-notifications.ts:27-40 | the loop returns the least opening on a day other than Sunday strictly after now, at most 48 hours ahead, and its throw is never reached |
| `WorkWindow.OpeningsAreInside` | apps/api/src/lib/time.ts:79-83 | the opening instant and one second later are inside the window |
| `WorkWindow.NothingOpensEarlier` | apps/api/src/jobs/release-held-notifications.ts:26-40 | from outside the window no instant before the next opening is inside it |
| `WorkWindow.InsideMeansAfterAnOpening` | apps/mobile/src/location/window.native.ts:90-94 | the window is exactly the instants from an opening to the closing of its day, on server and device |
| `WorkWindow.InsideIsDecided` | apps/api/src/lib/time.ts:79-83 | counted in weeks, days, hours and minutes from a Sunday midnight in India: an instant is inside if and only if it falls on Monday to Saturday, from the first minute of the start to the last before the end |
| `WorkWindow.OnlyClockTextsAreAccepted` | apps/api/src/config.ts:37 | the texts 00:00 to 23:59 are accepted and no others |
| `WorkWindow.ClockTextsAreRead` | apps/api/src/lib/time.ts:59-62 | a time of day reads as its minutes since midnight |
| `WorkWindow.NineToSeven` | apps/mobile/src/location/window.test.ts:22-63 | six instants around 09:00 and 19:00 of a Monday and a Sunday in 2026 |
| `RateLimit.SlidingWindowLimiter.Take` | apps/api/src/lib/rate-limit.ts:37-50 | the pruned map answers exactly as the full history of hits would, for a clock that does not run backwards, and what the map then holds |
| `RateLimit.SlidingWindowLimiter.Sweep` | apps/api/src/lib/rate-limit.ts:39-45 | the in-place sweep keeps exactly the live timestamps and the keys that have one |
| `RateLimit.SweepAgrees` | apps/api/src/lib/rate-limit.ts:39-45 | no later answer can tell that a sweep ran |
| `RateLimit.SweepKeepsTheRecent` | apps/api/src/lib/rate-limit.ts:22-28 | a key survives a sweep exactly when its history has a hit inside the window |
| `RateLimit.PruningIsUnobservable` | apps/api/src/lib/rate-limit.ts:46 | timestamps dropped now would count at no later instant |
| `RateLimit.NeverMoreThanTheLimit` | apps/api/src/lib/rate-limit.ts:18-21 | no half-open interval of one window's length contains more than `limit` accepted hits of a key |
| `RateLimit.AdmitsExactlyBelowTheLimit` | apps/api/src/lib/rate-limit.ts:46-49 | a hit is accepted if and only if fewer than `limit` hits of its key, accepted or refused, were made less than a window before |
| `RateLimit.AtMostTheLimitPerWindow` | apps/api/src/lib/rate-limit.ts:18-21 | the bound, on the set of accepted hits of a window |
| `BusinessNumbers.ParseUndoesFormat` | packages/shared/src/sequence.ts:35-86 | parsing a formatted number returns its scope, fiscal year and value, for every scope, all two-digit years with 99 running into 00, and all values |
| `BusinessNumbers.FormatUndoesParse` | packages/shared/src/sequence.ts:57-86 | formatting what was parsed returns the text if and only if its counter has five digits or no leading zero |
| `BusinessNumbers.FormatIsInjective` | packages/shared/src/sequence.ts:35-45 | two different numbers never print alike |
| `BusinessNumbers.FormatRange` | packages/shared/src/sequence.ts:40-51 | formatting is refused exactly outside its range |
| `BusinessNumbers.FormatIsDecided` | packages/shared/src/sequence.ts:35-51 | character by character: prefix, two short years of two digits, and a counter of five digits or as many more as it needs; which of the two errors is raised, and in which order they are looked for |
| `BusinessNumbers.ParseIsDecided` | packages/shared/src/sequence.ts:57-87 | a text is parsed to given parts if and only if it is a known prefix, two consecutive short years and at least five digits that denote the value |
| `BusinessNumbers.PaddedReadsBack` | packages/shared/src/sequence.ts:44-53 | zero padding keeps the number and reaches the width |
| `BusinessNumbers.NumbersAreUnique` | apps/api/src/lib/sequences.ts:75-93 | no two allocations, in any order over scopes and years, print the same number |
| `BusinessNumbers.AllocationCounts` | apps/api/src/lib/sequences.ts:82-92 | issued numbers stay below their counter and never repeat |
| `BusinessNumbers.AllocationIsDecided` | apps/api/src/lib/sequences.ts:68-92 | each scope counts 1, 2, 3 in each year: a number is one more than the allocations its scope and year had before |
| `Money.GroupEnIN` | packages/shared/src/format.ts:11-22 | the loop from the right computes the grouping: a last group of three and groups of two before it |
| `Money.CommasLoseNothing` | packages/shared/src/format.ts:7-10 | deleting the commas of a grouped amount returns its digits |
| `Money.PairsShape` | packages/shared/src/format.ts:17-20 | the earlier groups concatenate to the digits, all but the first have two, and the first has one or two |
| `Money.GroupedIsDecided` | packages/shared/src/format.ts:7-22 | a grouped amount has a comma exactly where the number of places to its right is a positive multiple of three |
| `Money.OnlyDigitsConcat` | packages/shared/src/format.ts:12 | grouping keeps the digits of its input and nothing else, in order |
| `Money.StripToNumeric` | packages/shared/src/format.ts:40-52 | the typing loop keeps the digits and the first dot |
| `Money.StrippingTwiceIsOnce` | packages/shared/src/format.ts:39-52 | stripping what was stripped changes nothing |
| `Money.StrippedIsDecided` | packages/shared/src/format.ts:39-52 | the typed text is the digits before the first dot, the dot if there is one, and the digits after it |
| `Money.BeforeDotIsDecided` | packages/shared/src/format.ts:31 | what stands before the first dot |
| `Money.MoneyIsDecided` | packages/shared/src/format.ts:29-37 | rupees grouped, a missing whole part as zero, and paise exactly when the first two decimals are not both zero, as two digits; what follows them is cut |
| `Money.NoiseIsIgnored` | packages/shared/src/format.ts:30 | any character that is neither digit nor dot may be deleted from the input |
| `Money.FormattingKeepsTheAmount` | packages/shared/src/format.ts:29-37 | the formatted text stands for the amount that was entered, cut to whole paise, if and only if that amount is zero or bears no minus sign |
| `Money.FormattingKeepsThePaise` | packages/shared/src/format.ts:29-37 | grouping, the dropped zero paise and the added zeros change no digit that counts |
| `Money.MinusIsFirstExactly` | packages/shared/src/format.ts:30 | when a text bears a minus sign: one stands before every digit and dot |
| `Money.MinusIsDropped` | packages/shared/src/format.ts:30 | an input whose sign is lost: minus five is shown as five |

## Left out

Environment and assumptions:

- The database: snapshots, row locks and savepoints behave as PostgreSQL documents them; stamps written by `now()` strictly increase, so a `locked_at` names one claim.
- Hashes (sha256, token hashes) are taken as injective and minted uuids as distinct; argon2, HMAC signing, S3 and push messages are not modelled.
- `Idempotency` is of one (employee, key) row; rows of different keys share the business tables, which are not modelled, and the pool, which `ConnectionPool` models.
- Handlers that write through `getPool()` directly (`apps/api/src/modules/companies/service.ts:169`, `apps/api/src/modules/catalog/service.ts:83`) write outside the request transaction and outside the theorems; so do handler writes after the request settled.
- ConnectionPool: pg's own pool is modelled by what it documents: a client released with an error, as `pool.query` does when its statement throws, or found broken is discarded, any other is kept as it is, and a resting one may be closed. The size of the pool, waiting for a free connection and its timeout are not modelled; a statement that got no connection is one that failed. The pool's other users, reads and `withTransaction` on a connection of its own, are not in it; the latter ends its transaction on every path (`NestedTransactions.Connection.WithOwnTransaction`). A statement fails because the database refuses it, which aborts an open transaction, or because the connection breaks.
- Idempotency.ConnectionsComeBackIdleExactly: the handler's text is the sequence of programs that ran; which way a handler branches on data it reads is not modelled. An error that leaves the handler is rendered with a status of 400 or more (`apps/api/src/plugins/errors.ts:99-140`).
- The request hash of multipart uploads, the key length check and requests without a key are not modelled.

Per component:

- SubmitIntent.OneKeyOneCommit: sends of one writer are taken one at a time; `OverlappingSends` says exactly when overlapping ones still share a key. The guarantee ends when a stored answer is pruned, which is exactly from thirty days after the CLAIM of its row on (`IdempotencyOutcomes.PruneActsExactlyAfterThirtyDays`).
- SubmitIntent.RefusedOutrightSavedNothing: the network may lose and delay requests and answers but does not duplicate a request, and every 4xx comes from the API, not from a proxy before it.
- A 2xx whose body the client cannot read is an acceptance without its bytes; the model hands over the stored bytes.
- RefreshTokens.ReuseIsFinal: each server transaction is one atomic step here; `TokenRaces.dfy` takes the rotating and the revoking statements apart, and there a reuse is final exactly under the condition stated. Device rows and access tokens are not modelled, and ids are numbered in insertion order.
- TokenRaces: one revoking UPDATE marks all its rows in one event, at the moment of the last; the check of `is_active` is read when a rotation takes its lock.
- RefreshClient.NeverReusesAToken: assumes that storage works, that no answer of a completed rotation is lost (without that, `LostAnswerEndsTheLogin`), and that nothing elsewhere ends this login; `ElsewhereLeavesUsAlone` shows that the last condition leaves out no event that is harmless to its live token.
- The single-flight clear, cached feature flags and the device header of the API client are not modelled.
- NestedTransactions: a connection that dies inside a block, and the advisory locks of the same file.
- CanonicalJson: bigint and Date inputs, which print like numbers and strings; sparse arrays and inherited properties. A finite double is represented by its shortest decimal form, and that distinct doubles have distinct ones is a property of ECMAScript.
- Contracts: prices, notes, listing, the statuses derived from today's date, and `createContract`'s insert failing for other reasons than the overlap.
- PingBuffer: SQLite itself, the ping payload, and server-side verdicts beyond their counts.
- CompanyList: the base64 form of a cursor, the scope predicate's SQL, and the placeholder renumbering of `updateCompanyScoped`.
- Ledger: the SQL views behind a sale's total and the balance, of which only what the query's comment states is used; money is integer paise.
- CashHandovers.TheTrailTellsEverything: leaves out the time of an answer, which a reopen clears from the row and does not copy into the audit trail.
- CashHandovers: the queue and history reads, the history of the employee's own note, and a patch with no field, which the request schema keeps out.
- WorkWindow: IST is a fixed five and a half hours; time zone data of other eras and the release scheduler's timers.
- BusinessNumbers: the date arithmetic of `fiscalYearFor`, rolled-back allocations (so no claim of gap-free numbers), and values beyond the integers a JavaScript number holds exactly.
- Everything else in the repository (screens, navigation, permissions matrix, catalogue, customers, devices, consents, dashboard, attachments, notifications' bodies, migrations) is finite lookups, single-row storage or user interface and would only add easy members.
