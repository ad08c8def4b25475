# A verified model of a document question-answering backend

The backend ingests documents, indexes their chunks in Qdrant and Elasticsearch through a
transactional outbox, and answers questions over them: hybrid retrieval, reranking, generation,
and a critic that may send the pipeline round again. Requests pass a Redis rate limiter; a
session's latest turns are kept in a Redis list beside the durable log. This project models that
logic in Dafny 4.11 and proves what it promises. `dafny verify dfyconfig.toml` checks all of it.

## The outbox

`OutboxModel` is a step system. The state holds the documents, the outbox rows, both stores and,
for each relay worker, its batch snapshot, its cursor and its phase. One event is one step that is
atomic in the deployed system: a commit, one call to a store, one query, an exception, a crash.
Any number of workers interleave. Two switches make four systems: claimed rows stay locked for the
batch (`BatchLocks`), or the first commit of a batch releases them (`PerRowCommit`, what the code
does); collection names are the literal ones (`AsCoded`), or one per user in both handlers
(`PerUser`). A theorem over `c: Config` holds in all four.

What the code's per-row commits leave of retry accounting is stated exactly. `FinalIffSettled` says,
for every row and both disciplines, when no run changes it again; `RetryCountsIffFresh` says when its
retry count is the number of its failed attempts; `CanFallIff` says when a count can still fall. With
batch-long locks these give `RetryCountsFailures`, `RetryMonotone`, `DeadIsTerminal` and
`PublishedIsTerminal`;
`StaleSnapshotRevivesDead` is a run that shows how far the code is from them.

`WakeupNotLost` and `QuiescentReady` allow every crash but that of the last worker that would wake the
document. `CanBecomeReadyIff` says exactly when a document that still shows `processing` can become
ready, whatever its rows show: some workers must be left that bring back every dead row of it, and every
row one of them is about to dead-letter, and one of them has a row of it, or a row is open. With no
worker left that means a row open and none dead (`IdleReadyIff`); for a fully published document mostly
one worker with one row (`CanBecomeReadyIffHeld`). The general form is needed because two workers that
are each about to dead-letter a row may each have the other's row ahead, and then revive both.

`Relay` and `IngestionService` are the two classes as the code has them, updated in place. Their
methods are proved against functions on the state; `BatchIsRun` proves a relay batch is a run of the
step system, whichever calls raise, so the theorems hold of it. `OutboxContent` follows the text from
the ingest request into both stores (`ReadyAsIngested`).

What the proofs found:

- The two handlers name different collections, so as coded a deletion removes nothing
  (`AsCodedNeverRemoves`). `DeleteKeysAreIngestKeys` and `DeleteEmptiesIff` say what one name per user
  gives, and that nothing less does.
- A deletion is final only if no upsert row of the document is open or can still be written or put
  back by a worker; one that waits for its retry brings its chunk back (`StaysEmptyIff`,
  `DeleteThenRetryResurrects`).
- A worker that dies between its publish commit and the ready check may leave the document in
  `processing` for good (`CrashLosesWakeup`, `CanBecomeReadyIff`).
- The ready check runs in the same `try` as the publish commit, so in the code's control flow an
  exception there puts a published row back to open (`ReadyCheckFailureReopens`): a published row is
  final only when no worker stands on it or has it ahead (`PublishedFinalIff`).
- Both searches read other collections than the relay writes: as coded no query finds a chunk the relay
  has stored, not even of a ready document (`SearchedIff`, `ReadySearchableIff`).
- The dense search awaits the calls of the synchronous Qdrant client, whose results cannot be awaited, inside
  its own `try`: as coded every dense search raises, and so no query succeeds (`DenseRaisesFails`). The other
  theorems about queries hold for every reply.
- One name per user would not be enough. The relay indexes chunks without the document id that the lexical
  search reads outside its `try`: then a search fails with an uncaught error exactly when a stored chunk of
  the user is among its hits (`RelayedHitIff`), and so does a query, on any attempt whose dense search does
  not fail first (`RelayedQueryFails`).
- A document without chunks is never ready (`EmptyNeverReady`).

## The rate limiter

`RateLimiter` has the sorted set with Redis's commands and `RateKey`, the key updated in place.
`RateWindow` is a limiter with admission times only; `RateLimiterHistory` proves the sorted set refines
it over every history of requests and carries the bounds over. `RateLimiterTtl` adds the time to live,
`RateLimiterTwoPhase` the undo and the reads after it as commands of their own, as in the code. When
nothing comes between it is the atomic version (`SerialIsAtomic`); otherwise an undo may take out
another request's admission, and the window bound is lost (`TwoPhaseOverAdmits`). `ExactAccounting` says
what the set holds then, `OverAdmitsIff` and `OverDeniesIff` when a single decision is wrong, and
`EvictionBound` that the bound is exceeded by at most the admissions so taken out: by nothing if there
are none (`PlainBound`). Late reads may find the set empty, and then raise (`LateReadsRaise`); that
takes undos that took out every admission left in the window (`ReadRaisesIff`).

The retry hint is rounded down. One second more always suffices (`RetryAfterSuffices`); the hint itself
does exactly when whole seconds are left, or at most one (`HintSufficesIff`).

Routes with several windows and limits may share a key. The bound of the shortest window holds on it, with
the time to live too (`WindowBound`, `TtlWindowBound`); `RouteBoundIff` says exactly which routes keep
their bound. Of the two that share the key of an address, login does and registration does not
(`AddressKey`): a login prunes what the hour of registrations still needs, and its time to live may
remove the key early (`ExpiryForgets`). `TtlInvisibleIff` says when the time to live changes anything.

## Sessions

`SessionCache` relates the Redis list to the durable turns. A read does not renew the list's time to
live, so a request that starts late in its life pushes to an expired list and leaves a fragment:
`ExactIffKeepsAlive` says exactly when. The docstring of `add_turn` says a failed push is covered by a
Postgres read; `LostPushStaleIff` says exactly when it is: when the list is cold by then, or says
nothing but what was lost. `HealsAfterWindow` says when the list is right again. `SessionEnd` is the
status machine of ending and summarizing. A handler that dies between its commit and `delay` leaves the
session pending for good (`SummarizableIff`, `EnqueueCanBeLost`).

`SessionTurns` lets the calls on one session overlap. Two calls of `add_turn` may read the same count and
lose an increment: the count is right exactly when no such overlap occurred, and never again after one
(`CountExactIff`, `LossIsForever`). The `/end` route sets neither `ended_at` nor clears the list, so a
session it has ended takes turns for ever (`CanGrowIff`, `RouteNeverStops`).

## Chunks

`Chunker` has the window loop and the snap to a sentence end, with Python's slices.
`ChunkCoverage` says when chunks lose text: exactly when some window's start is reached by no
earlier piece (`CoveredIff`). Long enough overlaps exclude that (`LongOverlapLosesNothing`); the
defaults of 512 and 64 do not (`DefaultLosesText`). Below 50 characters the cut is misplaced
(`ShortSnapMissesIff`).

## Queries

`RrfFusion`, `Reranker`, `ContextBuilder` and `Critic` are the stages; `QueryPipeline` is the retry loop
over services that may answer anything. `RrfLaws` and `QueryContract` state what comes out. `Prompts`
says letter by letter what the models read, `QueryStages` what each attempt asks whom and does with the
answers, and `QueryRoute` which turns of the session it gets as history. Three
results differ from what the documentation suggests. The prompt template is filled by `str.format` after
the history and excerpts are in it, so their braces are read as fields (`PromptVerbatimIff`), and a
field that cannot be filled is an error nobody catches (`UncaughtIff`): without attributes and formats
the context alone decides how long the query must be (`ContextNeedsIff`): for plain fields no query
matters (`SimpleContextDecides`), but an excerpt that quotes `{query[5]}` raises for short queries only
(`IndexedContextNeedsLength`). `Format` has the scan of `str.format` with names, indices, conversions
and nested formats. The critic numbers excerpts by their place among the used ones and the generator by
rank, so the `[N]` markers agree only up to the first dropped excerpt (`MarkersAgreeIff`). A fence
around the critic's verdict is removed exactly when line breaks stand on both sides of the verdict
(`FenceRemovedIff`); otherwise a PASS may be taken as FAIL.

## Model

| member | source | states |
|---|---|---|
| OutboxSafety.StepInv | app/tasks/outbox_relay.py:38-73 | Every step of any worker, ingest or deletion keeps the outbox invariant, under both lock disciplines and both routings. |
| OutboxSafety.ReadySound | app/tasks/outbox_relay.py:143-163 | In every reachable state a document shown as ready has all its chunks, with the ingested content, in both stores, at least one chunk, and no deletion queued. |
| OutboxSafety.RetryBounds | app/tasks/outbox_relay.py:61-70 | In every run, stale snapshots included, an open row has fewer than 5 retries and a dead row exactly 5. |
| OutboxSafety.StepKeepsChunk | app/tasks/outbox_relay.py:89-140 | No step takes a chunk of a document that is not being deleted out of either store. |
| OutboxDelivery.EffectivelyOnce | app/tasks/outbox_relay.py:38-55 | However steps were repeated, interleaved or cut short, once all upsert rows of a document with no deletion are published each store holds exactly what one in-order application of its rows gives. |
| OutboxDelivery.InOrderLast | app/services/ingestion_service.py:98-114 | The in-order result holds, under each key, the content of the last row that writes it. |
| OutboxDelivery.OneWriter | app/services/ingestion_service.py:99-105 | No two rows of a document write the same key: the ids are deterministic and distinct. |
| OutboxContent.ReadyAsIngested | app/services/ingestion_service.py:99-112 | On every run, when an ingested document is ready, both stores hold each chunk `i` of the ingest request with its own text, in Qdrant with the metadata of the request and in Elasticsearch with its number, and nothing else of the document. |
| OutboxContent.StoredAsIngested | app/tasks/outbox_relay.py:89-117 | Whatever a store holds of an ingested document in any state is such a chunk, under the name its metadata give. |
| OutboxContent.StoredUnder | app/tasks/outbox_relay.py:98 | As coded every stored chunk is under `user_docs_` and the `user_hash` of its metadata, or `user_docs_default` without one. |
| OutboxContent.DeleteCallTakes | app/tasks/outbox_relay.py:134-140 | As coded each call of a delete handler takes ids of the document out of `user_docs`, all at once out of Qdrant and one by one out of Elasticsearch, and nothing else. |
| OutboxWakeup.WakeupNotLost | app/tasks/outbox_relay.py:50-59 | Unless the last worker that stood at the check of the document crashed or its check raised, whenever all rows of a document with chunks are published and it still shows `processing`, some worker stands between its publish commit and its mark-ready update; all other crashes and failures are allowed. |
| OutboxWakeup.WakeupSurvivesMarkFailure | app/tasks/outbox_relay.py:57-70 | The same with raising ready checks allowed too: some worker stands there, or is about to put a row of the document back. |
| OutboxWakeup.QuiescentReady | app/tasks/outbox_relay.py:148-163 | Unless the last worker that would wake it crashed, once no batch is running a document with chunks and no deletion whose rows are all published is ready. |
| OutboxWakeup.CheckMarksReady | app/tasks/outbox_relay.py:148-163 | The worker at the check marks the document ready in its next two steps. |
| OutboxReadyRuns.CanBecomeReadyIff | app/tasks/outbox_relay.py:38-70 | In every reachable state a document in `processing`, whatever its rows show, can become ready iff a worker is about to mark it, or some workers are left, one of which has a row of it at or ahead of its cursor unless a row is open, that can revive every dead row of it and every row that one of them is about to make dead. |
| OutboxReadyRuns.CanBecomeReadyIffHeld | app/tasks/outbox_relay.py:50-70 | For a fully published document, no worker being about to make a row of it dead: iff some worker has a row of it at or ahead of its cursor. |
| OutboxReadyRuns.IdleReadyIff | app/tasks/outbox_relay.py:26-70 | With no worker left: iff a row of it is open and none is dead. |
| OutboxWakeup.EmptyNeverReady | app/services/ingestion_service.py:71-82 | A document ingested with no chunks is ready in no reachable state. |
| OutboxFinal.FinalIffSettled | app/tasks/outbox_relay.py:38-70 | Under every lock discipline no run changes a row of a reachable state again iff it is not open and every worker that has it at or ahead of its cursor is past its calls and, if published, cannot raise any more or, if dead, would write the fifth retry again. |
| OutboxFinal.PublishedFinalIff | app/tasks/outbox_relay.py:38-70 | As coded a published row is final iff no worker has it at or ahead of its cursor. |
| OutboxFinal.DeadFinalIff | app/tasks/outbox_relay.py:38-70 | As coded a dead row is final iff every worker that has it stands on it, past its calls, from a snapshot with four retries. |
| OutboxRetry.RetryCountsIffFresh | app/tasks/outbox_relay.py:61-70 | Along every run, under every lock discipline, the retry count is at every point the number of failed attempts iff no failure was committed from a stale snapshot. |
| OutboxFalls.CanFallIff | app/tasks/outbox_relay.py:26-70 | In every reachable state some run can still lower the count of a row iff locks are per commit and the row is open with at least two retries left, or a worker has it at or ahead of its cursor with a snapshot of at most two retries, of at least two less than the count, or of three while the row is open or another worker has it. |
| OutboxDelete.DeleteKeysAreIngestKeys | app/tasks/outbox_relay.py:98-137 | In every reachable state the ids the delete handler recomputes are index by index those the ingest queued; both handlers look for them in the same place iff there is one collection per user, or no chunk. |
| OutboxDelete.DeleteEmptiesIff | app/tasks/outbox_relay.py:120-140 | If no upsert row of the document is open or in flight when a delete row of it, the first or a later one, starts to be handled, then once that row is published no store holds a chunk of it, from then on, iff there is one collection per user or none was there before. |
| OutboxDelete.StaysEmptyIff | app/tasks/outbox_relay.py:61-70 | In every reachable state, with batches running or not, an emptied document stays empty over every continuation iff none of its upsert rows is open and no worker can still write one or put it back. |
| OutboxDelete.AsCodedNeverRemoves | app/tasks/outbox_relay.py:98-140 | With the literal collection names no run removes or changes anything that a store holds. |
| OutboxRuns.CrashLosesWakeup | app/tasks/outbox_relay.py:55-59 | A reachable state, one crash after a publish commit, from which the document stays in `processing` in every run without a deletion. |
| OutboxRuns.ReadyCheckFailureReopens | app/tasks/outbox_relay.py:39-70 | A run on which a published row is put back to open, with batch-long locks too. |
| OutboxRuns.StaleSnapshotRevivesDead | app/tasks/outbox_relay.py:55-70 | Under per-row commits, a run on which a dead row with 5 retries becomes open with 1. |
| OutboxRuns.DeleteThenRetryResurrects | app/tasks/outbox_relay.py:61-70 | Under either discipline, a run on which the delete row is published and a failed upsert's retry then writes the chunk to both stores. |
| OutboxRelay.Relay.RelayOutboxBatch | app/tasks/outbox_relay.py:24-70 | The batch, updated in place, leaves the state `RelayBatch` gives for any outcome of its rows. |
| OutboxRelay.Relay.RelayOne | app/tasks/outbox_relay.py:38-70 | One row: its handler, the publish commit and the ready check, or the retry update. |
| OutboxRelay.Relay.Select | app/tasks/outbox_relay.py:26-36 | The first 100 open rows in table order. |
| OutboxRelay.SelectsFirst | app/tasks/outbox_relay.py:26-36 | At most 100 rows are selected, and an open row that is not comes after 100 that are. |
| OutboxRelay.Relay.HandleUpsertChunk | app/tasks/outbox_relay.py:89-117 | The Qdrant write, then the Elasticsearch write, or as much of them as happened before the exception. |
| OutboxRelay.Relay.HandleDeleteChunks | app/tasks/outbox_relay.py:120-140 | The bulk Qdrant delete and one Elasticsearch delete per chunk, or as many as happened before the exception. |
| OutboxRelay.Relay.MaybeMarkDocumentReady | app/tasks/outbox_relay.py:143-163 | The document goes from `processing` to ready iff no row of it is left unpublished; nothing else changes. |
| OutboxRelay.BatchIsRun | app/tasks/outbox_relay.py:24-73 | Whatever raises, the batch is a run of the step system under either discipline. |
| OutboxDrain.BatchLowersMeasure | app/tasks/outbox_relay.py:31-34 | One batch lowers the retries left on open rows by at least its own size. |
| OutboxDrain.RelayDrains | app/tasks/outbox_relay.py:11-34 | `n` fresh rows are all published or dead after n/20 + 5 batches of one worker, whichever handlers raise. |
| Ingestion.IngestionService.IngestDocument | app/services/ingestion_service.py:73-135 | A committed ingest adds the document and one open row per chunk, row `i` with number `i`, text `i`, the metadata and the user, and is the ingest step; a refused one leaves nothing. |
| Ingestion.IngestionService.DeleteDocument | app/services/ingestion_service.py:155-195 | The status change and one delete row at the end together, nothing for a document already being deleted, not found for somebody else's. |
| RateLimiter.RateKey.SlidingWindowCheck | app/core/rate_limiter.py:47-86 | One request updates the key in place as `Check` says of what Redis shows, and renews the time to live. |
| RateLimiter.RateKey.ZRemRangeByScore | app/core/rate_limiter.py:71 | The prune of a sorted set. |
| RateLimiter.RateKey.ZAdd | app/core/rate_limiter.py:73 | The insertion of a new member in score and member order. |
| RateLimiter.RateKey.ZPopMax | app/core/rate_limiter.py:81 | The removal of the greatest entry. |
| RateLimiterHistory.UndoRestoresScores | app/core/rate_limiter.py:79-81 | Adding a request and popping the greatest entry leaves the pruned scores, with equal timestamps too. |
| RateLimiterHistory.AdmittedIff | app/core/rate_limiter.py:70-86 | Over every history on the key, a request whose window is not longer than the others' is admitted iff fewer than its limit of all admissions lie in (now - window, now]; a denial's hint comes from the oldest of them. |
| RateLimiterHistory.SetHoldsRecent | app/core/rate_limiter.py:71-73 | After every request whose window is not longer than the others' the scores are the admission times its prune keeps. |
| RateLimiterHistory.WindowBound | app/core/rate_limiter.py:65-86 | On a key used with any windows of at least `window`, every interval (t - window, t], for every t, holds at most l admissions made under limits of at most l. |
| RateLimiterTtl.ExpiryInvisibleIff | app/core/rate_limiter.py:70-76 | The time to live changes nothing for a request iff the key has not expired or holds no score later than the request's cutoff. |
| RateLimiterTtl.TtlInvisibleIff | app/core/rate_limiter.py:74 | It changes no decision, hint, admission or score of a whole history iff that holds at each request. |
| RateLimiterTtl.TtlInvisible | app/core/rate_limiter.py:74 | So it changes nothing while no request has a longer window than the one before it, on a key with one window in particular. |
| RateLimiterTtl.ExpiryForgets | app/api/v1/users.py:40 | A registration, a login and a registration 63 seconds after the first: the last one is admitted with the time to live and denied without it. |
| RateLimiterTtl.TtlAdmittedIff | app/core/rate_limiter.py:70-86 | With the time to live, on a key that any routes share, a request whose window is not longer than the others' is admitted iff fewer than its limit admissions lie in its window. |
| RateLimiterTtl.TtlWindowBound | app/core/rate_limiter.py:65-86 | The window bound for the shortest window on the key, with the time to live. |
| RateLimiterTtl.RouteBoundIff | app/core/rate_limiter.py:65-86 | With the time to live, a route that shares its key keeps its bound over every history iff no route of the key has a shorter window, but for routes with larger limits and a time to live of at least its window when its own limit is one. |
| RateLimiterTtl.AddressKey | app/api/v1/auth.py:44 | On the key of an address the bound of ten logins a minute holds and that of five registrations an hour does not. |
| RateLimiterHistory.RetryAfterRange | app/core/rate_limiter.py:82-84 | The hint of every denial is between 1 and the window, whatever windows share the key. |
| RateLimiterHistory.RetryAdmittedIff | app/core/rate_limiter.py:79-84 | With one limit and nothing admitted since, a later request is admitted iff the oldest admission of the denial's window has left. |
| RateLimiterHistory.RetryAfterSuffices | app/core/rate_limiter.py:82-84 | A request at least one second later than the hint is admitted, with one limit and nothing admitted since. |
| RateLimiterHistory.HintSufficesIff | app/core/rate_limiter.py:82-84 | A request exactly at the hint is admitted iff whole seconds, or at most one, are left in the window for the oldest admission (or that one is at time 0). |
| RateLimiterHistory.MixedWindowsOverAdmit | app/core/rate_limiter.py:71-79 | Whenever a shorter window shares a key, more than a limit of at least two is admitted within the longer one. |
| RateWindow.AdmitBound | app/core/rate_limiter.py:70-86 | The window bound of the shortest window for the limiter that keeps admission times only. |
| RateLimiterTwoPhase.SerialIsAtomic | app/core/rate_limiter.py:76-84 | With each undo and read right after its pipeline, the two-phase limiter has the entries and log of the atomic one, and no undo takes out an admitted request. |
| RateLimiterTwoPhase.ExactAccounting | app/core/rate_limiter.py:76-81 | After any interleaving, the admissions in a window that ends now or later are the entries of the set in it, less the denied ones, plus the evicted admissions in it. |
| RateLimiterTwoPhase.DeniedAreInSet | app/core/rate_limiter.py:73-81 | The scores counted as denied are scores of the set. |
| RateLimiterTwoPhase.OverAdmitsIff | app/core/rate_limiter.py:76-86 | A request is admitted beyond its limit iff the set holds fewer entries in the window than the limit, and at least the limit when the denied ones are replaced by the evicted. |
| RateLimiterTwoPhase.OverDeniesIff | app/core/rate_limiter.py:76-86 | A request within its limit is denied iff the set holds the limit of entries only because of denied ones not yet undone. |
| RateLimiterTwoPhase.EvictionBound | app/core/rate_limiter.py:76-81 | Under any interleaving an interval (t - window, t] holds at most l admissions under limits of at most l, plus its admissions that an undo took out. |
| RateLimiterTwoPhase.PlainBound | app/core/rate_limiter.py:76-81 | So the window bound holds whenever no undo took out an admitted request. |
| RateLimiterTwoPhase.TwoPhaseOverAdmits | app/core/rate_limiter.py:76-81 | A run with limit 2 and one late undo that admits 3 requests in one window. |
| RateLimiterReads.SerialReply | app/core/rate_limiter.py:79-84 | With each undo and read right after its pipeline a denial never raises, and its hint is the atomic limiter's. |
| RateLimiterReads.ReadRaisesIff | app/core/rate_limiter.py:82 | A denial that counted entries raises iff the set is empty at its read, which it is not while the window holds an admission that no undo took out. |
| RateLimiterReads.HintBound | app/core/rate_limiter.py:82-83 | Whatever runs between, the hint of a denial that does not raise is at least 1 and at most the window and the whole seconds passed on the key since the denial. |
| RateLimiterReads.LateHint | app/core/rate_limiter.py:79-83 | That bound is reached, however late the read: runs in which the entry read is of a request admitted later. |
| RateLimiterReads.LateReadsRaise | app/core/rate_limiter.py:79-82 | A run with limit 1 in which both denied requests find the set empty and raise. |
| SessionCache.SessionService.PushTurn | app/cache/session_cache.py:58-62 | The push, trim and expiry on what Redis shows. |
| SessionCache.SessionService.WarmCacheFromTurns | app/cache/session_cache.py:101-112 | The list becomes the last turns with a new expiry; nothing happens for no turns. |
| SessionCache.SessionService.AddTurn | app/services/session_service.py:91-140 | One durable turn, a matching turn count, and the push if it lands; not found, or a conflict after the end. |
| SessionCache.HistoryKeepsEveryTurn | app/services/session_service.py:80-140 | The history is every turn added, in order, whatever reads, expiries and failed pushes did to the list. |
| SessionCache.SessionService.GetWorkingMemory | app/services/session_service.py:142-169 | The live list, or the last durable turns, with the list rebuilt. |
| SessionCache.SessionService.EndSession | app/services/session_service.py:171-197 | Sets the end and clears the list once; a conflict afterwards. |
| SessionCache.CacheRefinesLog | app/api/v1/query.py:59-99 | Over any run of the query route in which the list may expire between requests, every read is exactly the last n durable messages. |
| SessionCache.ListLives | app/cache/session_cache.py:58-112 | The list lives an hour from each push and each rebuild; a read of a live list does not prolong it. |
| QueryRoute.ConversationLogged | app/api/v1/query.py:85-99 | After any requests the durable turns are their questions and answers, in turn, with their roles. |
| QueryRoute.HistoryHandedOver | app/api/v1/query.py:61-70 | Over requests that keep the list alive, what the pipeline gets as history is the end of that conversation, in order, `n` turns or all there are. |
| QueryRoute.DefaultHistory | app/config.py:140 | With the default window: the latest three questions and answers. |
| SessionCache.ExactIffKeepsAlive | app/api/v1/query.py:59-99 | For every window, a request leaves an exact list iff the list does not expire while the request runs; a window of two needs only the question to be alive when the answer is pushed, a window of one nothing. |
| SessionCache.LostPushStaleIff | app/services/session_service.py:130-169 | After a push lost to an exact list a read is right iff the list was empty or is cold by then, or the whole window says what the lost turn says. |
| SessionCache.CacheIsSubsequence | app/cache/session_cache.py:58-62 | Under lost pushes, cold pushes and evictions the list is at most n messages, a subsequence of the log. |
| SessionCache.HealsAfterWindow | app/cache/session_cache.py:58-62 | Whatever was lost before, after n pushes in a row that land on a live list it is exact. |
| SessionTurns.CountExactIff | app/services/session_service.py:108-127 | After any run of overlapping calls the turn count is at most the number of turns, and equal iff no turn was committed between another call's read and its commit. |
| SessionTurns.LossIsForever | app/services/session_service.py:126-127 | A count that is too small stays so in every later state. |
| SessionTurns.OverlapLoses | app/services/session_service.py:108-127 | A run with two overlapping calls, two turns and a count of one. |
| SessionTurns.CanGrowIff | app/services/session_service.py:108-127 | In every reachable state a session can still get a turn iff the service has not ended it, or a call that loaded it before has still to commit; the status of the route makes no difference. |
| SessionTurns.LateTurnsBound | app/services/session_service.py:110-127 | After the end it gets at most one turn of each call that had loaded it. |
| SessionTurns.RouteNeverStops | app/api/v1/sessions.py:107-153 | Whatever the `/end` route and its task do, the session can always get another turn. |
| SessionTurns.SummarizedStillGrows | app/api/v1/sessions.py:119-127 | A reachable session that is summarized and still takes turns. |
| SessionEnd.SessionRow.EndSession | app/api/v1/sessions.py:119-164 | 404 for somebody else's session, the status otherwise; the transition and one message only from active; a run of the status machine. |
| SessionEnd.SessionRow.UpdateSessionStatus | app/tasks/summarization.py:17-25 | The guarded update is the worker's step. |
| SessionEnd.EnqueuedAtMostOnce | app/api/v1/sessions.py:119-153 | Over every interleaving of callers, redeliveries and crashes summarization is enqueued at most once, never while active, and exactly once if summarized. |
| SessionEnd.StatusMovesForward | app/tasks/summarization.py:17-25 | The status only moves active, pending, summarized, one stage a step. |
| SessionEnd.RedeliveryIdempotent | app/tasks/summarization.py:17-25 | After an update has run, any later update, by the same or another worker and whatever ran in between, changes nothing. |
| SessionEnd.SummarizedOnce | app/tasks/summarization.py:17-25 | Over any run, overlapping copies of the message included, the updates change the session exactly once if it ends summarized, and never otherwise. |
| SessionEnd.CopiesOverlap | app/tasks/summarization.py:28-45 | Two workers can run copies of the message at the same time. |
| SessionEnd.SummarizableIff | app/api/v1/sessions.py:146-153 | A pending session can still be summarized iff its message, or a caller about to send it, is left. |
| SessionEnd.EnqueueCanBeLost | app/api/v1/sessions.py:149-153 | A reachable pending session with neither. |
| Chunker.ChunkText | app/ingestion/chunker.py:32-79 | The method computes `Chunks`: the error, the empty text, or the non-empty stripped pieces of all windows in order. |
| Chunker.CutWindows | app/ingestion/chunker.py:55-76 | The loop terminates with the stripped piece of each window. |
| Strings.AsciiSpaces | app/ingestion/chunker.py:72 | What stripping takes off, in ASCII: blank, tab, line breaks and feeds, and the four separators. |
| Chunker.ChunksFailIff | app/ingestion/chunker.py:32-47 | With 512 and 64 in place of zeros: an error iff the overlap is not smaller than the size, and no chunks for no tokens. |
| Chunker.ChunksInOrder | app/ingestion/chunker.py:55-79 | Otherwise the chunks are the stripped pieces of windows that start at multiples of the stride, in the order of the windows, and each window without a chunk has no text. |
| Chunker.LastEndIsLast | app/ingestion/chunker.py:90-94 | The match taken is the last sentence end. |
| Chunker.WindowCount | app/ingestion/chunker.py:55-76 | There are 1 + ceil(max(0, total - size) / stride) windows. |
| Chunker.NeighboursOverlap | app/ingestion/chunker.py:57-76 | All windows but the last have exactly `size` tokens, neighbours share exactly the overlap, and the last reaches beyond its predecessor. |
| Chunker.WindowsRoundTrip | app/ingestion/chunker.py:55-76 | Dropping each later window's overlap and concatenating rebuilds the token sequence. |
| ChunkCoverage.SnapKeepsSentences | app/ingestion/chunker.py:82-96 | From 50 characters on the snap keeps everything or a prefix that ends just after the last sentence end, and drops at least two characters less than it looks back. |
| ChunkCoverage.ShortSnapMissesIff | app/ingestion/chunker.py:88-96 | Below 50 characters the snap ends just after the last sentence end iff the text has 25 characters and that end lies before the 25th. |
| ChunkCoverage.PieceIsText | app/ingestion/chunker.py:57-69 | The piece of a window is the text from its start; the last window's reaches the end. |
| ChunkCoverage.CoveredIff | app/ingestion/chunker.py:55-76 | Every character lies in some piece iff each later window's start is reached by an earlier piece. |
| ChunkCoverage.LongOverlapLosesNothing | app/ingestion/chunker.py:32-79 | If every overlap decodes to at least as many characters, less two, as the snap looks back, each character that is no white space stands in a returned chunk within its own surroundings. |
| ChunkCoverage.DefaultLosesText | app/config.py:130-131 | With 512 and 64 there is a text whose characters 438 to 447 lie in no piece. |
| ContextBuilder.LongestHistory | app/services/generation_service.py:64-73 | A suffix of the history fits iff it starts no earlier than the kept one: the kept one is the longest. |
| ContextBuilder.BuildHistory | app/services/generation_service.py:64-73 | The backward loop gives the kept lines in chronological order. |
| Prompts.ConversationReads | app/services/generation_service.py:64-73 | The history text is the lines from some turn on, joined in chronological order, each with the capitalized role, a colon and the content; a later part of the lines fits the budget iff it starts no earlier. |
| ContextBuilder.BuildExcerpts | app/services/generation_service.py:78-89 | The loop's excerpts and chunks are those the greedy choice picks, in rank order. |
| Prompts.ExcerptsRead | app/services/generation_service.py:78-91 | The excerpts are those of the chunks used, in order, each with its rank, file name and text; a chunk is used iff its excerpt fits what the excerpts used before it left of the budget. |
| ContextBuilder.BuildContext | app/services/generation_service.py:51-99 | The template and the chunks used, both from the same choice. |
| Prompts.CapitalizeIs | app/services/generation_service.py:68 | The first letter becomes a capital, all others small, and nothing else changes. |
| Prompts.RolesRead | app/services/generation_service.py:68 | So the two roles are read as "User" and "Assistant". |
| Prompts.MessageReads | app/services/generation_service.py:93-97 | The whole template, letter by letter: headings, conversation or its stand-in, excerpts or theirs, and the place of the query. |
| ContextBuilder.GreedyIsLexGreatest | app/services/generation_service.py:82-89 | A choice of excerpts fits and is lexicographically greatest by rank among all that fit iff it is the loop's. |
| ContextBuilder.NoDroppedFits | app/services/generation_service.py:85-86 | The budget left over is less than the cost of every dropped excerpt. |
| ContextBuilder.MarkersAgreeIff | app/services/critic_service.py:98-100 | For a used chunk the generator's and the critic's marker are the same iff no chunk before it was dropped. |
| ContextBuilder.PromptVerbatimIff | app/services/generation_service.py:93-114 | `format` sends context and query as they are, for every query, iff history and excerpts hold no brace. |
| ContextBuilder.UncaughtIff | app/services/generation_service.py:113-147 | Generation raises an error that is not a generation error iff the context does not scan as a template or a field in it cannot be filled for this query, whatever the model. |
| ContextBuilder.ContextNeedsIff | app/services/generation_service.py:113-114 | If no field of the context has an attribute or a format, it raises that error iff the query is shorter than a length, none or more than any included, that excerpts and history alone decide. |
| ContextBuilder.SimpleContextDecides | app/services/generation_service.py:113-114 | If no field has an index either, excerpts and history alone decide whether it raises, for no query and no model differently. |
| ContextBuilder.IndexedContextNeedsLength | app/services/generation_service.py:113-114 | A context that quotes `{query[n]}`, and no other brace, raises exactly for queries of at most n characters. |
| ContextBuilder.QuotingChunkNeedsLength | app/services/generation_service.py:78-114 | A single excerpt whose text quotes `{query[n]}`, and that fits its budget, makes the context so. |
| Format.FillFailsIff | app/services/generation_service.py:114 | `format` raises iff the template does not scan or one of its fields cannot be filled. |
| Format.FollowIff | app/services/generation_service.py:114 | Indices can be followed iff the query is longer than the first and all later ones are zero. |
| Format.VerbatimIff | app/services/generation_service.py:114 | A context comes out unchanged with the query behind it, for every query, iff it has no brace. |
| Format.EscapedRoundTrip | app/services/generation_service.py:114 | A context with every brace doubled comes out as it was. |
| Format.ConversionApplies | app/services/generation_service.py:114 | `{query!s}` gives the query, `r` and `a` what they make of it, and any other conversion raises. |
| Format.FormatApplies | app/services/generation_service.py:114 | A format gives what the formatter makes of that field and the query. |
| Format.AttributeApplies | app/services/generation_service.py:114 | So does an attribute. |
| Format.EchoVerbatim | app/services/generation_service.py:114 | With a formatter that gives a field back as its own source, a context with braces would come out unchanged. |
| Format.FillNeedsIff | app/services/generation_service.py:114 | A template without attributes and formats raises iff the query is shorter than its text demands, for any formatter. |
| ContextBuilder.PlainContextGenerates | app/services/generation_service.py:113-147 | Without braces in them the model is asked exactly context and query, and the outcome is its answer with the chunks shown, or a generation error. |
| Ranking.SortDescIsStable | app/services/retrieval_service.py:106 | Sorting by descending key is a permutation that keeps the order of equal keys. |
| RrfFusion.RrfFuse | app/services/retrieval_service.py:75-108 | The two loops over the dictionaries and the sort give `Fused` with weights 1/(k + rank). |
| RrfLaws.EntryHasId | app/services/retrieval_service.py:91-105 | An entry carries the last lexical result of its id, or the first dense one, with the total score. |
| RrfLaws.FusedIsUnion | app/services/retrieval_service.py:88-108 | The fused ids are the duplicate-free union of both lists, each with the sum of its shares. |
| RrfLaws.FusedOrder | app/services/retrieval_service.py:102-106 | The greater score comes first, and of equal scores the id first seen. |
| RrfLaws.ScoreAt | app/services/retrieval_service.py:91-98 | In a list of distinct ids an id scores the share of its rank. |
| RrfLaws.Dominance | app/services/retrieval_service.py:91-106 | A chunk ahead of another wherever that one occurs comes before it. |
| RrfLaws.RecallOnlyAdds | app/services/retrieval_service.py:57-62 | Extending both lists at their ends keeps every id and lowers no score. |
| RrfLaws.BothBeatOne | app/services/retrieval_service.py:83-86 | A chunk at ranks of at most k + 1 in both lists comes before every chunk only one list has. |
| RrfLaws.BothTieAtNextRank | app/services/retrieval_service.py:91-106 | At rank k + 2 in both lists a chunk ties with the first lexical result and comes after it. |
| RrfLaws.TieExists | app/services/retrieval_service.py:91-106 | Such lists exist for every k. |
| RrfLaws.CutKeepsBest | app/services/retrieval_service.py:72 | What the cut to top_k drops scores no more than what it keeps, and it drops only when full. |
| Reranker.Rerank | app/services/reranker_service.py:64-89 | The backends, the missing key and failing calls, and the empty list before all of them. |
| Reranker.RerankCohere | app/services/reranker_service.py:103-109 | The loop over the service's indices, negative ones counted from the end, an index out of range being an error. |
| Reranker.CohereFollowsHits | app/services/reranker_service.py:103-109 | It succeeds iff every index is in range, and then gives the named candidates in the order of the hits, each with its hit's score. |
| Reranker.LocalKeepsBest | app/services/reranker_service.py:112-125 | The local backend returns the top_k best-scored candidates, each once, best first, ties in candidate order. |
| Reranker.LocalReranks | app/services/reranker_service.py:64-125 | The local backend is asked the query and the candidates' texts in order, and its scores select the best `top_k`, or the default number for zero. |
| Reranker.CohereReranks | app/services/reranker_service.py:92-109 | The Cohere backend is asked the same and at most as many results as there are candidates, and its hits select. |
| Reranker.RerankFailsIff | app/services/reranker_service.py:70-125 | With candidates it fails iff the key is missing, the call raises or an index is out of range; without any the result is empty. |
| Reranker.RerankedFromCandidates | app/services/reranker_service.py:92-125 | Whatever the backend answers, each chunk returned is a candidate with a new score. |
| Critic.FencedRoundTrip | app/services/critic_service.py:66-74 | What was wrapped in a fence comes out, for every language tag, body and surrounding white space. |
| Critic.FenceRemovedIff | app/services/critic_service.py:66-74 | A fence is removed iff line breaks stand on both sides of the body, for every tag, body and white space. |
| Critic.FenceIgnoredIff | app/services/critic_service.py:125-150 | For every parser a fenced reply is judged like the bare one iff line breaks stand on both sides of the body. |
| Critic.CheckFailsIff | app/services/critic_service.py:125-150 | The check fails, with a generation error, iff the call raised or had no content, the reply is JSON but no object, or the claims have no length. |
| Search.Bm25Search | app/search/es_search.py:38-63 | The results of the reply: none without an index, a retrieval error if the call raises, an uncaught one for a missing field. |
| Search.Bm25Iff | app/search/es_search.py:38-63 | It succeeds iff there is no index or every hit has a text and a document id, and then each result has the id, text, document id and file name of its hit, in order; it is a retrieval error iff the call raised. |
| Search.DenseSearch | app/vector_store/qdrant_search.py:35-61 | The points in order, missing fields being empty. |
| Search.DenseIff | app/vector_store/qdrant_search.py:35-61 | Each result has the id of its point and the text, document id and file name of its payload, in order; it is a retrieval error iff the call raised. |
| SearchedStores.SearchedIff | app/search/es_client.py:48-50 | In every reachable state the two searches of a user read exactly the stored chunks of the user's own documents if there is one name per user, and none as coded, for every user and all metadata. |
| SearchedStores.ReadySearchableIff | app/tasks/outbox_relay.py:98-117 | A chunk of a ready document is where both searches of its owner read iff there is one name per user. |
| SearchedStores.RelayedHitIff | app/search/es_search.py:51-60 | In every reachable state a lexical search fails with an uncaught error iff there is one name per user and a stored chunk of the user is among its hits. |
| QueryPipeline.HybridRetrieve | app/services/retrieval_service.py:37-72 | The cut of the fused lists, or the error of the embedding or of the search that failed first. |
| QueryPipeline.RetryLoop | app/pipelines/query_pipeline.py:61-136 | The loop over its variables returns what the recursive run gives, for any services. |
| QueryPipeline.RunQueryPipeline | app/pipelines/query_pipeline.py:45-136 | The pipeline is that run with the four stages as its attempt. |
| QueryContract.RecallDoubles | app/pipelines/query_pipeline.py:99 | Attempt i asks for min(recall * 2^i, 500). |
| QueryContract.RetryContract | app/pipelines/query_pipeline.py:72-119 | At most MAX + 1 attempts, the first with the query and each later one with what the claims before it give, each with its recall, all but the last failed; the response is the last one's, the note is there iff FAIL, which comes with MAX corrections and retry count MAX + 1, and PASS with the two counts equal. |
| QueryStages.AttemptReads | app/pipelines/query_pipeline.py:72-83 | Attempt `j` searches for its own query with its own recall and reranks with that query; the model is asked the user's query with the whole history and the selected chunks, and its reply is the answer; the critic is asked about that answer and the chunks shown, and its reply decides verdict and claims. |
| QueryStages.PlainAttemptReads | app/services/generation_service.py:93-132 | Without braces, what the model of attempt `j` reads, letter by letter. |
| QueryStages.NextAsks | app/pipelines/query_pipeline.py:98-103 | The first attempt asks the user's query, each next one that query and the claims of the reply before it, joined by semicolons, or the same as before if there were none. |
| QueryStages.MixedClaimsFail | app/pipelines/query_pipeline.py:101-103 | Claims that are not all strings end the query with an uncaught error when a retry is left. |
| QueryStages.ResponseReads | app/pipelines/query_pipeline.py:111-136 | The answer of the last attempt with the note behind it on FAIL, its sources and verdict, and the two counts; the note alone if no attempt is allowed. |
| QueryStages.DefaultAttempts | app/config.py:118-149 | At the default settings at most three attempts, which ask for 100, 200 and 400 results. |
| QueryContract.PassWasParsed | app/pipelines/query_pipeline.py:83-86 | A reported PASS means the critic's reply about exactly this answer and these sources parsed to PASS. |
| QueryContract.SourcesFromFinalLists | app/pipelines/query_pipeline.py:73-81 | The sources are those of the last attempt of the run, and each is a result of its two search lists, with its fused score and a rerank score. |
| QueryContract.SourcesDistinct | app/pipelines/query_pipeline.py:73-81 | With the local reranker no chunk is a source twice, even if a search list repeats it. |
| QueryContract.FailsIff | app/pipelines/query_pipeline.py:72-103 | The pipeline fails with an error iff, after a run of failed attempts with a retry left, the next attempt raises it or the last claims cannot be joined. |
| QueryContract.DenseRaisesFails | app/vector_store/qdrant_search.py:33-51 | If the dense search of the first attempt raises, the query fails whatever the other services answer: with the error of the embedding, of a lexical search that fails first, or else a retrieval error. |
| QueryContract.ListsRaiseIff | app/services/retrieval_service.py:37-62 | An attempt's retrieval fails with an uncaught error iff that is so and the dense search does not fail first. |
| QueryContract.RelayedQueryFails | app/search/es_search.py:51-60 | With one name per user, a query one of whose attempts, the first or a later one, finds a stored chunk of the user, its dense search not failing first, fails with an uncaught error. |

## Left out

- The clients of Postgres, Redis, Qdrant, Elasticsearch and the models: they are maps, lists and arbitrary answers. app/models is not part of this model.
- `_handle_upsert_memory`, `memory_service.py` and `ingest_pipeline.py`: they repeat the outbox pattern in a weaker form, or the outbox path replaced them.
- Parsing of files, authentication, row-level security, audit logging, error mapping and schemas: wrappers and one-branch facts.
- The choice of key and limit by `get_rate_limiter` and `get_ip_rate_limiter`: the theorems are about one key and any limits on it.
- The chunk list of an ingest is arbitrary, because the source has a placeholder there; embeddings are deterministic, so a point holds its text; `uuid5(doc, i)` is taken as injective and `uuid4` as fresh.
- Document statuses `deleted` and `failed`: nothing modelled sets them, and a document being deleted stays so. Two delete requests that both read the old status may both commit, so the deletion step is enabled in every status.
- The delete handler's payload never has a `chunk_count`, so only the query for it is modelled.
- A database error that also makes the worker's session unusable is a crash of the worker; `MarkFail` is an exception in the ready check after which the retry update succeeds.
- OutboxRelay.Relay.Select: rows are in table order, one order by `created_at`; rows of one ingest have equal times. The step system lets a worker claim any open rows in any order.
- OutboxRetry.RetryCountsFailures: assumes batch-long locks, the intent of the query's `FOR UPDATE SKIP LOCKED`; what the code gives is RetryCountsIffFresh.
- OutboxRetry.RetryMonotone: assumes batch-long locks too; what the code gives is OutboxFalls.CanFallIff.
- OutboxRetry.LocksKeepFresh: assumes batch-long locks too; what the code gives is RetryCountsIffFresh.
- OutboxRetry.DeadIsTerminal: assumes batch-long locks too; what the code gives is DeadFinalIff.
- OutboxRetry.PublishedIsTerminal: assumes batch-long locks and no raising ready check; what the code gives is PublishedFinalIff, and FinalIffSettled without raising checks.
- OutboxDrain.RelayDrains: is about one worker, without crashes and new rows.
- The number of retries of the summarization task: redelivery and giving up are both always possible.
- Clocks: one clock per key or session that never runs backwards, in milliseconds or seconds; several application servers with different clocks are not modelled. The limiter's window is at least one second.
- RateLimiterTwoPhase.ExactAccounting: leaves out the time to live, whose effect RateLimiterTtl states for requests that do not interleave; entries with one score are alike, so an undo that pops a score with a denied request takes that one.
- SessionTurns.CountExactIff: each call of `add_turn` loads the row anew; that an object loaded by an earlier call of the same request could be reused is not modelled.
- SessionCache.SessionService.AddTurn: is about calls one after the other; what overlapping ones do to the count is in SessionTurns.
- A read of working memory during which Redis fails, and reads concurrent with pushes: the events of a session come one after the other.
- `json` round trips of cached turns, and timestamps, which differ between the list and the log.
- The tokenizer: a token is the piece of text it decodes to, so decoding distributes over concatenation; token counts of whole strings are an arbitrary function.
- `int(len * 0.15)` is the exact floor of 15 n / 100, RRF scores and rerank scores are exact reals, and no score is a NaN. Negative chunk sizes, overlaps and `top_k` are not modelled.
- ContextBuilder.PromptVerbatimIff: what an attribute or a format makes of the query is an arbitrary function. It is taken never to make, of the empty query, a text that quotes the field itself, its brace and its name; no attribute of a Python string does, while texts with other braces are allowed. An index must be in ASCII digits.
- `str.capitalize` outside ASCII, and chunks without a `filename` key: both searches always set it, and a null one prints as `None`.
- QueryPipeline.RunQueryPipeline: leaves out `latency_ms`, logging and the fixed system prompts.
- Search.Bm25Search: reads string fields only; a field of another type is not modelled.
- SearchedStores.RelayedHitIff: documents that other writers than the relay put into an index have all fields, as those of `index_chunks` do. The digest of a user id is any 32 hex digits; that two users' digests differ is not needed.
- Search.DenseSearch: takes the reply as given; that it can only be `QdrantRaises` as coded is a matter of the language, not of the model.
