# Notification delivery: model and proofs

A Dafny model of the notification aggregator and of the router in front of it:
the MySQL tables, the Redis delivery cache and retry set, and the Kafka topics
are shared state, and the services' methods are steps over it. Providers, clocks
and failures are unconstrained.

Every effect a service performs has an outcome: it returns, it throws without
having taken effect, or it takes effect and throws all the same. Each service is
a class whose methods change the backend step by step, with the source's
try/catch structure; each method is proved equal to a function of the old state
(`Deliver`, `Execute`, `Pass`, `InsertAll`, `Handle`), and the results below are
about those functions, for all inputs, and about all finite runs built from them.
A step that is not enabled does nothing, so a run is any sequence of steps.

| file | part |
|---|---|
| Wrappers, Text | option type; numerals, payloads, composite keys |
| Store | tables, cache, retry set, topics, and the operations on them |
| Backoff, RetryQueue | delay table; the scheduler and interleaved two-command polls |
| Delivery, DeliveryCases, AtMostOnce | one delivery attempt under any faults; its outcome case by case; many attempts over time |
| Logs, RetryFlow, ClosedLoop | log projections; the path of a retry; the closed wired loop |
| UseCase, UseCaseCases | the older, unwired stack, for contrast |
| Batch, EachBatch, Workers | bulk check and insert; the batch handler; interleaved workers |
| Ingress | the router's accept/duplicate decision |

## What the proofs found

Where the code keeps a promise only under a condition, the condition is stated
exactly and the failing case is given.

- A poll reads and deletes in two commands. No retry is lost if and only if clock
  skew plus landing lag stay below 1000 ms, the smallest back-off, and no delete
  takes effect without its poll returning (`RetryQueue.NoRetryLostIff`). None is returned
  twice if and only if polls do not overlap (`RetryQueue.ReturnedOnceIff`).
- "Never call provider twice" (`services/notification-aggregator/src/services/DeliveryProcessorService.ts:26`)
  holds for 24 hours and no longer, and for exactly these failures of other effects:
  any but those of the dedup read, the status read, the SENT write, the audit save and
  the log after a successful send, and a lost refresh of the cache entry. Each of
  these has a run that sends twice (`AtMostOnce.NeverTwiceIff`). The older stack has no
  window, and the failures that matter there are those of the status read and of what
  follows a send (`UseCase.NeverTwiceIff`); in a message's own chain only a SENT write
  that a later turn relies on does (`UseCase.ChainSendsOnceIff`).
- Scheduler and processor both add one to the attempt number, so the wired stack
  tries 1, 3, 5 and its four attempts are three; the 10 s and 5 min delays are never
  used (`ClosedLoop.ThreeAttemptsReached`, `ClosedLoop.DelaysUsed`).
- Insert results are ignored. A pass sends a key once only if its new keys differ
  (`EachBatch.KeysSentOnceIff`), and a message whose content is stored under another key
  is sent on every replay and blocks its offset (`EachBatch.SharedContentResends`,
  `EachBatch.ReplayIsNoOpIff`).
- A replay skips whatever has a row. Messages that were inserted and not reached when
  a pass was cut short, or whose commit was not acknowledged, stay IN_PROGRESS and are
  never sent, although the offset is resolved (`EachBatch.StrandedForGood`,
  `Workers.UnseenKeyIsStranded`).
- With colon-free tenants and one live worker per partition, concurrent workers process
  a key once if and only if it stays in one partition
  (`Workers.SafeIffOnePartitionPerKey`); `Workers.SafeIffOrderly` is exact without these two
  conditions. Events are keyed by user and split by channel, which does not keep a key in
  one partition (`Workers.PartitioningByUser`); and a batch that outlasts the session timeout
  goes on beside its own replay, since the heartbeat comes only after the offset is
  resolved.
- With colons in tenant ids two keys may read the same, and then the string-keyed
  check is wrong on some table (`Batch.BulkIsLookupIff`) and a message may be dropped
  (`EachBatch.CollidingKeyIsDropped`).
- Ingress answers follow the history exactly when the dedup read, the publish and the
  log cannot fail and no cache write is lost (`Ingress.FollowsIff`). A DUPLICATE answer has an
  event behind it exactly when no publish is lost (`Ingress.DuplicatesBackedIff`): the cache
  entry comes first and stays (`Ingress.RetryAfterFailedPublish`). Overlapping requests with
  one key can both be accepted (`Ingress.AcceptedOnceIff`).

## Assumptions

- SQL string equality is exact; ZADD inserts or rescores; SETNX with the EX option
  is set-if-absent with that expiry, as `DESIGN_README.md` writes it, although some
  client versions ignore the option.
- Where the SQL of the code and `scripts/init.sql` name columns differently
  (`attempts` and `attemptCount`, `error` and `providerError`) they are one column,
  and the required `dlq_entries.tenantId`, which the code does not supply, is taken to
  have a default.
- Timed results read one clock that does not run back; `RetryQueue` instead bounds
  how far clocks may stray, and says whether a delete may take effect unseen, as when
  its acknowledgement or its process is lost.
- Ingress requests come one at a time; only in `Ingress.AcceptedOnceIff` do the dedup
  read and the cache write of different requests interleave.
- Providers succeed or fail freely in every result on repeated sends.
- In the closed loops only the provider fails, messages are rehydrated from their
  rows by id, and a poll with its republishing is one step: an event lost between the
  delete and the republish is excluded, since the code gives no guarantee there.
- Where a lemma needs it, message ids are free of colons, as UUIDs are; the hash is an
  arbitrary function, and collision-free only where a lemma says so.
- The batch model and the closed retry loop are separate. Republished retries carry
  four fields only, so they are not composed end to end.

## Model

| member | source | states |
|---|---|---|
| `Text.ParseIntOfDigits` | services/notification-aggregator/src/services/RetrySchedulerService.ts:48-95 | parseInt gives back every natural number that was printed into a payload, of any length |
| `Text.ParseIntIs` | services/notification-aggregator/src/services/RetrySchedulerService.ts:95 | parseInt skips white space, reads the longest run of digits and ignores the rest, and is NaN when the run is empty |
| `Text.ParseSigned` | services/notification-aggregator/src/services/RetrySchedulerService.ts:95 | ... and takes one sign before the digits |
| `Text.Split` | services/notification-aggregator/src/services/RetrySchedulerService.ts:91 | splitting at colons yields at least one part and only colon-free parts |
| `Text.JoinSplit` | services/notification-aggregator/src/services/RetrySchedulerService.ts:91 | splitting at colons loses nothing: joined again the parts are the string |
| `Text.PayloadRoundTrip` | services/notification-aggregator/src/services/RetrySchedulerService.ts:48-97 | decoding `messageId:channel:attempt` recovers the triple for colon-free ids and channels |
| `Text.PayloadRoundTripIff` | services/notification-aggregator/src/services/RetrySchedulerService.ts:48-97 | ... and only for those: a colon in the id or the channel always breaks the round trip |
| `Text.PayloadInjective` | services/notification-aggregator/src/services/RetrySchedulerService.ts:48 | two colon-free triples never share a payload |
| `Text.PayloadParts` | services/notification-aggregator/src/services/RetrySchedulerService.ts:48 | a payload is id, channel and number, in that order |
| `Text.KeyParts` | services/task-router/src/services/DeduplicationService.ts:135-140 | the parts of the index text, the ingress key and the delivery key, in their order |
| `Text.DedupParts` | services/task-router/src/services/HashService.ts:10 | the hashed text is body, user, recipient and tenant, in that order |
| `Text.TenantKeyInjective` | services/notification-aggregator/src/services/BatchIdempotencyService.ts:77-91 | the index text of the bulk check identifies tenant and key when tenants are colon-free |
| `Text.IngressKeyInjective` | services/task-router/src/services/DeduplicationService.ts:135-140 | the ingress cache key identifies tenant and key when tenants are colon-free; the key may be any text |
| `Text.IngressKeyCollision` | services/task-router/src/services/DeduplicationService.ts:135-140 | forbidding only `:key:` inside a tenant id is not enough: a concrete collision |
| `Text.DeliveryKeyInjective` | services/notification-aggregator/src/services/DeliveryDeduplicationService.ts:67-69 | delivery cache keys of different dedup keys differ |
| `Text.DedupPreimageInjective` | services/task-router/src/services/HashService.ts:10 | the hashed text identifies its four parts when the last three are colon-free; the body may be any text |
| `Store.Backend.UpdateStatus` | services/notification-aggregator/src/repositories/DeliveryRepository.ts:87-102 | writes status, flag and attempts of one row, and nothing at all when the row is missing |
| `Store.Backend.GetStatus` | services/notification-aggregator/src/repositories/DeliveryRepository.ts:104-119 | reads whether the row exists and is delivered |
| `Store.Backend.SaveAttempt` | services/notification-aggregator/src/repositories/DeliveryRepository.ts:21-38 | appends an audit row, or throws without effect when the message has no row (foreign key) |
| `Store.Backend.SaveDlqEntry` | services/notification-aggregator/src/repositories/DeliveryRepository.ts:40-56 | appends a dead letter, or throws without effect when the message has no row (foreign key) |
| `Store.Backend.ZRangeByScore` | services/notification-aggregator/src/services/RetrySchedulerService.ts:83-88 | lists each member scored between 0 and now exactly once, by rising score |
| `Store.Backend.SetNX` | services/notification-aggregator/src/services/DeliveryDeduplicationService.ts:36-38 | writes a key with its expiry only when no live entry exists |
| `Backoff.MinimumDelay` | services/notification-aggregator/src/services/DeliveryProcessorService.ts:32-250 | no attempt number makes the wired stack wait under 1000 ms, and only attempt 1 waits exactly that |
| `Backoff.DelayTable` | services/notification-aggregator/src/services/DeliveryProcessorService.ts:32-250 | waits of 1, 10 and 30 s after attempts 1 to 3 and 5 min otherwise, and four attempts |
| `RetryQueue.RetryScheduler.ScheduleRetry` | services/notification-aggregator/src/services/RetrySchedulerService.ts:39-69 | one member, numbered one above the given attempt, scored at now plus delay; other members untouched |
| `RetryQueue.RetryScheduler.GetPendingRetries` | services/notification-aggregator/src/services/RetrySchedulerService.ts:76-113 | an undisturbed poll returns the decoded due members and removes exactly those; every retry is still queued or returned exactly when the delete did not take effect and throw |
| `RetryQueue.PollReturnsTriples` | services/notification-aggregator/src/services/RetrySchedulerService.ts:90-97 | a poll returns the very triples that were scheduled, for colon-free ids and channels |
| `RetryQueue.TimelyAlways` | services/notification-aggregator/src/services/RetrySchedulerService.ts:46-88 | in every run a queued score is the one of the last ZADD of that payload, and every poll holds only payloads due by its clock |
| `RetryQueue.NoRetryEarly` | services/notification-aggregator/src/services/RetrySchedulerService.ts:46-88 | a returned retry was due: clock reading of the landing that last scored it, plus the back-off of the attempt that landing was for, is at most the polling clock; no assumption on clocks |
| `RetryQueue.RetryWaitsItsDelay` | services/notification-aggregator/src/services/DeliveryProcessorService.ts:250-271 | so a returned retry numbered n comes no earlier than the back-off of attempt n - 1 after a scheduling for that very message and attempt, for colon-free ids |
| `RetryQueue.DeleteReturns` | services/notification-aggregator/src/services/RetrySchedulerService.ts:83-106 | what a poll deletes it has read itself, also for a payload re-added meanwhile |
| `RetryQueue.SafeAlways` | services/notification-aggregator/src/services/RetrySchedulerService.ts:39-113 | no interleaving of schedulers and polls loses a retry while skew plus lag stay under 1000 ms and every delete that takes effect returns |
| `RetryQueue.LosingRunLoses` | services/notification-aggregator/src/services/RetrySchedulerService.ts:83-106 | with skew plus lag of 1000 ms or more there is a run that loses a retry between read and delete |
| `RetryQueue.UnseenRunLoses` | services/notification-aggregator/src/services/RetrySchedulerService.ts:101-112 | a delete that takes effect and throws makes the poll return nothing, and loses what it read |
| `RetryQueue.NoRetryLostIff` | services/notification-aggregator/src/services/RetrySchedulerService.ts:39-113 | hence: nothing is lost in any run if and only if skew plus lag is below 1000 ms and no delete takes effect unseen |
| `RetryQueue.DeletedIsNotQueued` | services/notification-aggregator/src/services/RetrySchedulerService.ts:83-106 | what an ending poll holds is not queued any more, whatever landed meanwhile: a newer score is a newer landing |
| `RetryQueue.PollEnds` | services/notification-aggregator/src/services/RetrySchedulerService.ts:99-112 | a poll is over once its delete was sent, whatever became of it; a poll that read nothing deletes nothing, and only one that returns counts as returned |
| `RetryQueue.ReturnedOnceIff` | services/notification-aggregator/src/index.ts:95-112 | no landing is returned by two polls, in any run and for any clocks, if and only if polls do not overlap; the 100 ms timer lets them |
| `Delivery.DeliveryDeduplicationService.CheckDeliveryDedup` | services/notification-aggregator/src/services/DeliveryDeduplicationService.ts:25-46 | miss writes an optimistic 24 h entry, hit does not; every Redis error answers "new" |
| `Delivery.DeliveryDeduplicationService.SetDeliveredCache` | services/notification-aggregator/src/services/DeliveryDeduplicationService.ts:54-65 | rewrites the entry for 24 h; a Redis error is swallowed |
| `Delivery.DeliveryProcessor.ProcessDelivery` | services/notification-aggregator/src/services/DeliveryProcessorService.ts:54-170 | for every outcome of every effect, state and result are those of `Deliver`, which `DeliveryCases` gives case by case |
| `DeliveryCases.DuplicateIff` | services/notification-aggregator/src/services/DeliveryProcessorService.ts:67-83 | the answer is "duplicate" exactly when the dedup read returns a live entry and the status read a delivered row |
| `DeliveryCases.ThrowsIff` | services/notification-aggregator/src/services/DeliveryProcessorService.ts:142-169 | a call throws exactly when its try block does and the catch block does not get through |
| `DeliveryCases.ReturnIs` | services/notification-aggregator/src/services/DeliveryProcessorService.ts:61-289 | every return value, in every case of every effect |
| `DeliveryCases.CallsAre` | services/notification-aggregator/src/services/DeliveryProcessorService.ts:67-98 | the provider is given the recipient and body of the message once, with its number, or nothing, in every case |
| `DeliveryCases.RowsAre` | services/notification-aggregator/src/services/DeliveryProcessorService.ts:106-262 | status, flag and attempts of the row afterwards, in every case; no other row changes |
| `DeliveryCases.AuditsAre` | services/notification-aggregator/src/services/DeliveryProcessorService.ts:113-159 | which attempts are audited, and as what, in every case |
| `DeliveryCases.QueueIs` | services/notification-aggregator/src/services/DeliveryProcessorService.ts:250-271 | what is queued, for when and with what number, in every case |
| `DeliveryCases.LettersAre` | services/notification-aggregator/src/services/DeliveryProcessorService.ts:185-206 | what dead letters are stored and published, in every case |
| `DeliveryCases.CacheIs` | services/notification-aggregator/src/services/DeliveryDeduplicationService.ts:25-61 | what the delivery cache holds, and until when, in every case |
| `Delivery.DeliveryProcessor.HandleMaxAttemptsReached` | services/notification-aggregator/src/services/DeliveryProcessorService.ts:175-238 | FAILED row, stored and published dead letter, in that order, stopping at the first throw |
| `Delivery.DeliveryProcessor.HandleRetry` | services/notification-aggregator/src/services/DeliveryProcessorService.ts:244-289 | PENDING row, then the queued retry, stopping at the first throw |
| `Delivery.ResultAgrees` | services/notification-aggregator/src/services/DeliveryProcessorService.ts:64-289 | under any faults a normal return means: success, the row is SENT; retry, it is PENDING and its payload queued at the right time; neither, it is FAILED with a dead letter stored and published; never IN_PROGRESS |
| `Delivery.CoherentKept` | services/notification-aggregator/src/services/DeliveryProcessorService.ts:106-262 | no call, however it ends, separates finalDelivered from status SENT |
| `Delivery.SuccessDelivers` | services/notification-aggregator/src/services/DeliveryProcessorService.ts:82-141 | success or duplicate is only reported for a delivered row |
| `Delivery.DeliverTouches` | services/notification-aggregator/src/services/DeliveryProcessorService.ts:54-289 | whatever fails, a call changes only its own row, cache key and payload, and only appends log entries of its own message |
| `Delivery.ProviderCalledIff` | services/notification-aggregator/src/services/DeliveryProcessorService.ts:67-99 | the provider is called once, or spared exactly when Redis answers with a live entry and the row reads as delivered or cannot be read |
| `Delivery.SuccessKeptIff` | services/notification-aggregator/src/services/DeliveryProcessorService.ts:100-168 | after the provider accepted a message, success is kept exactly when the row exists and the SENT write, the audit save and the log all return; otherwise a normal return has reset the row |
| `Delivery.LostSuccessResends` | services/notification-aggregator/src/services/DeliveryProcessorService.ts:67-168 | a success that was not kept is sent again by the next call for the message, unless that call cannot read the status |
| `Delivery.EffectsInOrder` | services/notification-aggregator/src/services/DeliveryProcessorService.ts:106-271 | wherever a call stops, returning or throwing: a retry is queued only for a row already PENDING with its failure audited, a dead letter is stored only for a row already FAILED and published only once stored, and no row becomes delivered without a successful provider call |
| `AtMostOnce.ProtectedStays` | services/notification-aggregator/src/services/DeliveryDeduplicationService.ts:30-65 | inside its window a delivered row keeps its flag and its cache entry, whatever other calls come and whatever harmless failures they meet |
| `AtMostOnce.AtMostOncePerWindow` | services/notification-aggregator/src/services/DeliveryProcessorService.ts:64-168 | over any sequence of calls for any mix of messages, no provider call within 24 h of a successful send of a message that has a row, and the row stays delivered; any effect may fail but the reads before and the writes after the send |
| `AtMostOnce.ResendingRunResends` | services/notification-aggregator/src/services/DeliveryProcessorService.ts:67-168 | each harmful failure - of the dedup read, the status read, the SENT write, the audit save or the log, or a lost refresh of the cache on a retry just before its entry expires - leads to a second successful send in some run |
| `AtMostOnce.NeverTwiceIff` | services/notification-aggregator/src/services/DeliveryProcessorService.ts:26-168 | for any window and any set of failures that may happen beside those of the provider: no run sends a message again within the window if and only if the window is at most 24 h and none of the failures is harmful |
| `RetryFlow.RetryLoop.Tick` | services/notification-aggregator/src/index.ts:95-112 | one timer tick moves the due payloads to the topic as events, by rising score, or leaves the topic alone when the poll failed; without faults it is the polling step of the closed loops |
| `RetryFlow.RepublishedIs` | services/notification-aggregator/src/index.ts:100-107 | a payload is republished with its id and number, one without a number as 0 |
| `RetryFlow.ConsumeKeeps` | services/notification-aggregator/src/services/DeliveryProcessorService.ts:264-271 | consuming an event moves its message to the queue or off the path and disturbs no other message |
| `RetryFlow.PollKeeps` | services/notification-aggregator/src/index.ts:97-112 | a poll moves queued messages to the topic with their attempt number and disturbs no other |
| `RetryFlow.OnePending` | services/notification-aggregator/src/index.ts:97-112 | a message has one event, or one payload, or neither |
| `ClosedLoop.ProcessEffect` | services/notification-aggregator/src/services/DeliveryProcessorService.ts:91-289 | for an undelivered row with only the provider failing: one call, one audit row, one row update, and a queued retry or a dead letter |
| `ClosedLoop.ProcessKeeps` | services/notification-aggregator/src/services/DeliveryProcessorService.ts:54-289 | an event moves its message on by one phase, with failures numbered 1, 3, 5 |
| `ClosedLoop.Conservation` | services/notification-aggregator/src/index.ts:97-112 | in every reachable state an accepted message is in exactly one of four places: one event on the topic, one payload in the queue, delivered, or FAILED with exactly one dead letter |
| `ClosedLoop.Settled` | services/notification-aggregator/src/services/DeliveryProcessorService.ts:54-289 | when topic and queue are empty every accepted message is SENT or FAILED |
| `ClosedLoop.AuditAgrees` | services/notification-aggregator/src/repositories/DeliveryRepository.ts:21-102 | attempt numbers strictly increase, only the last can succeed, attempts equals the last number, SENT iff the last succeeded, FAILED iff there is a dead letter |
| `ClosedLoop.AtMostThreeAttempts` | services/notification-aggregator/src/services/DeliveryProcessorService.ts:33-61 | at most three provider calls per message, numbered 1, 3 and 5, and 3N in all |
| `ClosedLoop.DelaysUsed` | services/notification-aggregator/src/services/DeliveryProcessorService.ts:250-271 | each consumed event costs one call; retries wait 1 s after attempt 1 and 30 s after attempt 3, never longer |
| `ClosedLoop.LoopRunsDry` | services/notification-aggregator/src/services/DeliveryProcessorService.ts:33-61 | every consumed event is one provider call with the next number, and no run from N accepted messages consumes more than 3N events |
| `ClosedLoop.ThreeAttemptsReached` | services/notification-aggregator/src/services/DeliveryProcessorService.ts:33-61 | the bound is exact: from any N accepted messages some run calls the provider 3N times |
| `UseCase.ProcessDeliveryUseCase.Run` | services/notification-aggregator/src/domain/usecases/ProcessDeliveryUseCase.ts:31-160 | for every outcome of every effect and every dedup answer, state and result are those of `Execute` |
| `UseCase.ProcessDeliveryUseCase.ScheduleRetry` | services/notification-aggregator/src/infrastructure/services/RedisDeliveryService.ts:20-29 | the attempt number is queued as given |
| `UseCaseCases.ResultAgrees` | services/notification-aggregator/src/domain/usecases/ProcessDeliveryUseCase.ts:36-159 | success after a call means the row is SENT with this attempt and the success audited; without a call, that the row was delivered before, unless it rests on the cache alone; retry means a failure audited and the payload queued with its delay; neither means FAILED, audited, with a dead letter |
| `UseCaseCases.ReturnIs` | services/notification-aggregator/src/domain/usecases/ProcessDeliveryUseCase.ts:31-160 | every return value, in every case of every effect and dedup answer |
| `UseCaseCases.CallsAre` | services/notification-aggregator/src/domain/usecases/ProcessDeliveryUseCase.ts:41-54 | the provider is given the recipient and body of the message once, or nothing, in every case |
| `UseCaseCases.RowsAre` | services/notification-aggregator/src/domain/usecases/ProcessDeliveryUseCase.ts:57-105 | status, flag and attempts of the row afterwards, in every case; no other row changes |
| `UseCaseCases.AuditsAre` | services/notification-aggregator/src/domain/usecases/ProcessDeliveryUseCase.ts:64-95 | which attempts are audited, and as what, in every case |
| `UseCaseCases.QueueIs` | services/notification-aggregator/src/domain/usecases/ProcessDeliveryUseCase.ts:107-142 | what is queued and what dead letters are stored, in every case |
| `UseCase.ExecuteEffect` | services/notification-aggregator/src/domain/usecases/ProcessDeliveryUseCase.ts:36-86 | the provider is called exactly when the cache says new and the row can be read and is not delivered |
| `UseCase.EffectsInOrder` | services/notification-aggregator/src/domain/usecases/ProcessDeliveryUseCase.ts:57-142 | wherever a call stops: a retry is queued only after its failure is audited, a dead letter is stored only for a row already FAILED, and no row becomes delivered without a successful provider call |
| `UseCase.AtMostOneSuccessfulSend` | services/notification-aggregator/src/domain/usecases/ProcessDeliveryUseCase.ts:45-66 | whatever the cache answers, over any mix of calls a message with a row is never sent again after a success, with no time window, as long as the status read and what follows a send return |
| `UseCase.NeverTwiceIff` | services/notification-aggregator/src/domain/usecases/ProcessDeliveryUseCase.ts:45-105 | for any set of failures that may happen beside those of the provider: no message with a row is ever sent again after a success, over all runs, if and only if none of them is of the status read, the SENT write, the audit save after it or the log |
| `UseCase.DeliveredChainIsSilent` | services/notification-aggregator/src/domain/usecases/ProcessDeliveryUseCase.ts:45-51 | once the row is delivered, no later turn of the chain calls the provider, whatever fails |
| `UseCase.ChainSendsOnceIff` | services/notification-aggregator/src/domain/usecases/ProcessDeliveryUseCase.ts:52-159 | for a row not yet delivered and given outcomes of the SENT writes: whichever other effects fail, the chain never sends successfully twice if and only if every SENT write reaches the database but, at will, that of the last turn and those from the fourth attempt on |
| `UseCase.ChainIsShort` | services/notification-aggregator/src/domain/usecases/ProcessDeliveryUseCase.ts:34-142 | under any faults a chain makes at most one call per remaining attempt, with numbers not above 4 |
| `UseCase.AtMostFourAttempts` | services/notification-aggregator/src/domain/usecases/ProcessDeliveryUseCase.ts:98-142 | in the closed loop a message is tried with numbers 1, 2, 3, 4 at most, 4N calls in all, for every dedup answer |
| `UseCase.UseCaseDelays` | services/notification-aggregator/src/domain/usecases/ProcessDeliveryUseCase.ts:133-142 | a failed send is queued after 1, 10 or 30 s, and nothing else is queued |
| `UseCase.LoopRunsDry` | services/notification-aggregator/src/domain/usecases/ProcessDeliveryUseCase.ts:34-142 | the events of a message carry attempts 0, 1, 2, 3 at most, and no run from N accepted messages consumes more than 4N events, sent or not |
| `UseCase.FourAttemptsReached` | services/notification-aggregator/src/domain/usecases/ProcessDeliveryUseCase.ts:34-142 | the bound is exact: from any N accepted, undelivered messages some run calls the provider 4N times |
| `Batch.BatchIdempotencyService.CheckBatchIdempotency` | services/notification-aggregator/src/services/BatchIdempotencyService.ts:52-115 | new messages and duplicate entries, each in batch order, as the lookup of the first key with the same text decides |
| `Batch.BatchIdempotencyService.ExtractUniqueIdempotencyKeys` | services/notification-aggregator/src/services/BatchIdempotencyService.ts:206-224 | one key per text, the first that occurs, and no text twice |
| `Batch.BatchIdempotencyService.QueryExistingMessages` | services/notification-aggregator/src/services/BatchIdempotencyService.ts:229-263 | exactly the rows whose key is asked for |
| `Batch.BatchIdempotencyService.InsertNewMessagesInProgress` | services/notification-aggregator/src/services/BatchIdempotencyService.ts:124-201 | all or nothing: the table is that of `InsertAll` when the transaction commits and untouched otherwise; a throw leaves it untouched unless the commit itself took effect |
| `Batch.SplitIsPermutation` | services/notification-aggregator/src/services/BatchIdempotencyService.ts:90-111 | new and duplicate messages together are the batch, and their numbers add up to it |
| `Batch.BulkIsLookup` | services/notification-aggregator/src/services/BatchIdempotencyService.ts:52-115 | for colon-free tenants the bulk check answers like a lookup of each message's own key, with that row's id and status |
| `Batch.BulkIsLookupIff` | services/notification-aggregator/src/services/BatchIdempotencyService.ts:77-91 | for any tenants: the bulk check agrees with the lookup on every table if and only if different keys of the batch have different texts |
| `Batch.InsertReports` | services/notification-aggregator/src/services/BatchIdempotencyService.ts:136-189 | results match the input one to one and in order; a message is skipped exactly when it clashes with the table plus the rows inserted before it |
| `Batch.InsertStores` | services/notification-aggregator/src/services/BatchIdempotencyService.ts:136-189 | field by field: a message is inserted exactly when its id, its dedup key and its tenant and key are free at its turn, and its row then holds its tenant, key, dedup key, user, channel, recipient and body, IN_PROGRESS with no attempt |
| `Batch.InsertKeepsTable` | scripts/init.sql:3-31 | existing rows are unchanged, and both unique constraints beside the primary key are kept |
| `Batch.InsertCreates` | services/notification-aggregator/src/services/BatchIdempotencyService.ts:159-174 | the rows that appear are exactly those of the messages reported IN_PROGRESS |
| `Batch.InsertCovers` | services/notification-aggregator/src/services/BatchIdempotencyService.ts:124-201 | every key of the messages then has a row, provided ids and dedup keys are not shared between keys |
| `Batch.InsertCoversIff` | services/notification-aggregator/src/services/BatchIdempotencyService.ts:124-201 | for new and different keys: every key then has a row if and only if no message id or dedup key is stored already or occurs twice |
| `EachBatch.BatchConsumer.HandleBatch` | services/notification-aggregator/src/index.ts:116-260 | for every outcome of every effect, state and resolved offset are those of `Pass` |
| `EachBatch.ParseIs` | services/notification-aggregator/src/index.ts:128-161 | what is taken from an event, field by field: an absent or empty idempotency key is replaced by the dedup key, an absent attempt by 0 |
| `EachBatch.TextualAttempt` | services/notification-aggregator/src/index.ts:134-139 | an attempt that comes as text is read as a number, and counts as 0 when it is none |
| `EachBatch.ResolvedIff` | services/notification-aggregator/src/index.ts:184-255 | the offset is resolved if and only if there is a batch, check and insert return, and each new message, having its row, is accepted and recorded without a throw |
| `EachBatch.ResolvedIffAccepted` | services/notification-aggregator/src/index.ts:239-246 | when only providers fail and each new message got its row: if and only if all provider calls of the pass succeeded |
| `EachBatch.AllOkDelivers` | services/notification-aggregator/src/index.ts:184-243 | a processing loop that ends well has delivered every message it did not skip; no later message undid an earlier one |
| `EachBatch.OffsetSafe` | services/notification-aggregator/src/index.ts:184-255 | whenever the offset is resolved, each message is delivered, or shares its id with one found in the table |
| `EachBatch.OffsetSafeByKey` | services/notification-aggregator/src/index.ts:184-255 | with colon-free tenants and identifying ids: each message is delivered, or its own key had a row at check time |
| `EachBatch.NothingNewIff` | services/notification-aggregator/src/services/BatchIdempotencyService.ts:90-105 | the check finds nothing new exactly when every message is known |
| `EachBatch.ReplayIsNoOp` | services/notification-aggregator/src/index.ts:148-255 | when every message is known a pass changes nothing at all and resolves the offset |
| `EachBatch.CommittedPassCovers` | services/notification-aggregator/src/index.ts:172-237 | after an insert that took effect, acknowledged or not, every key of the batch has a row, wherever the pass was cut short and however the deliveries went |
| `EachBatch.ReplayAfterCut` | services/notification-aggregator/src/index.ts:148-255 | replay after an insert that took effect is a no-op that resolves the offset, wherever the first pass was cut short |
| `EachBatch.ReplayAfterPass` | services/notification-aggregator/src/index.ts:148-255 | replaying a batch whose insert took effect, even if its commit threw, is a no-op, given the condition on shared ids and contents |
| `EachBatch.PassSends` | services/notification-aggregator/src/index.ts:184-237 | for distinct and fresh message ids a pass that reaches its loop calls the provider exactly once for each new message, in batch order, numbered attempt + 1, whatever fails but the status read |
| `EachBatch.PassSendsContents` | services/notification-aggregator/src/index.ts:184-217 | ... and what the providers are given are the contents of the new messages, in order |
| `EachBatch.KeysSentOnceIff` | services/notification-aggregator/src/index.ts:173-237 | a pass sends each key at most once if and only if no two of its messages share a key not yet stored |
| `EachBatch.StrandedIff` | services/notification-aggregator/src/index.ts:172-255 | a pass cut short strands exactly the inserted messages it did not reach: row IN_PROGRESS, no call, nothing queued |
| `EachBatch.StrandedForGood` | services/notification-aggregator/src/index.ts:148-255 | ... and a replay resolves the offset without touching them, given the condition on shared ids and contents |
| `EachBatch.RehydratedIsInserted` | services/notification-aggregator/src/services/BatchIdempotencyService.ts:159-168 | a message is rehydrated from its row to what was inserted |
| `EachBatch.SharedContentResends` | services/notification-aggregator/src/index.ts:173-237 | without it: content stored under another key is sent again by every pass, which resolves nothing and stores nothing |
| `EachBatch.ReplayIsNoOpIff` | services/notification-aggregator/src/index.ts:148-255 | for distinct and fresh ids and different new keys: replay is a no-op if and only if no new message has content that is stored or occurs twice, wherever the pass was cut and whatever failed |
| `EachBatch.RepeatedKeyIsSentTwice` | services/notification-aggregator/src/index.ts:173-237 | two messages of one batch with one new key are both sent, because the insert results are ignored; the second leaves no record |
| `EachBatch.CollidingKeyIsDropped` | services/notification-aggregator/src/services/BatchIdempotencyService.ts:77-105 | tenant a with key b:c stored, tenant a:b with key c not: the second message is taken for a duplicate, never stored and never sent, and its offset is resolved |
| `Workers.CheckedWaits` | services/notification-aggregator/src/services/BatchIdempotencyService.ts:60-105 | what a check calls new, and what the loop will not skip, has no row at that time |
| `Workers.CheckTells` | services/notification-aggregator/src/index.ts:148-205 | which messages a check calls new, which of the batch are due, and what the commit records |
| `Workers.HandsInOrder` | services/notification-aggregator/src/index.ts:184-237 | in every run a pass hands its messages over in batch order, each once, whatever other workers do |
| `Workers.InsertSpares` | services/notification-aggregator/src/services/BatchIdempotencyService.ts:124-201 | when partitions tell keys apart and have one live worker, an insert stores no key another worker waits to store |
| `Workers.InvAlways` | services/notification-aggregator/src/index.ts:148-237 | invariant of all interleavings of check, commit, hand-over, crash, rollback and replay |
| `Workers.RacingRunUnsafe` | services/notification-aggregator/src/index.ts:173-237 | two partitions with one key, or two live workers of one partition: both check, both insert, and the second still processes the stored key |
| `Workers.CollidingRunUnsafe` | services/notification-aggregator/src/services/BatchIdempotencyService.ts:77-105 | two keys with one text in one partition: the worker processes a key that was stored before its check |
| `Workers.SafeIffOrderly` | services/notification-aggregator/src/index.ts:74-237 | a stored key is never handed to the processor by a later pass, over all runs and any tenants, if and only if messages whose keys read the same are in one partition exactly when they have one key, and no partition has two live workers at a time |
| `Workers.SafeIffOnePartitionPerKey` | services/notification-aggregator/src/index.ts:148-237 | when only colon-free tenants arrive and a partition has one live worker: if and only if each (tenant, key) stays in one partition |
| `Workers.StoredKeyHandedByStorer` | services/notification-aggregator/src/index.ts:148-237 | so no pass after the one that stored a key hands it over |
| `Workers.UnseenKeyIsStranded` | services/notification-aggregator/src/index.ts:172-255 | and when the worker did not see its commit, not even that pass does: the key is never handed over after it was stored |
| `Workers.PartitioningByUser` | services/task-router/src/services/MessagePublisher.ts:10-26 | a partitioning by channel and user does not keep a key in one partition, so some run processes a stored key |
| `Ingress.MessageController.HandleCreateMessage` | services/task-router/src/controllers/MessageController.ts:77-183 | validation error, duplicate or enqueue, for every outcome of Redis and Kafka: state and answer are those of `Handle` |
| `Ingress.IsEmailIff` | services/task-router/src/controllers/MessageController.ts:201-206 | the pattern matches exactly local@host.top with three words free of white space and @ |
| `Ingress.ValidateIs` | services/task-router/src/controllers/MessageController.ts:185-212 | which requests are invalid, and with which error first: an empty field, an unknown channel, an email recipient that is no address, a body that trims to nothing |
| `Ingress.AnswerIs` | services/task-router/src/controllers/MessageController.ts:80-183 | every answer, from the request, the cache and the outcomes alone |
| `Ingress.EffectIs` | services/task-router/src/controllers/MessageController.ts:95-163 | the cache and the topic afterwards, in every case |
| `Ingress.MessageController.CheckAndCacheIngressRequest` | services/task-router/src/services/DeduplicationService.ts:34-63 | miss writes a 72 h entry, hit does not; a Redis error answers "new" |
| `Ingress.StepRefines` | services/task-router/src/services/DeduplicationService.ts:34-63 | one request without harmful failures answers as the history says and keeps the cache in agreement with it |
| `Ingress.CacheRefinesHistory` | services/task-router/src/controllers/MessageController.ts:77-183 | over any run of requests one after another without harmful failures, a valid request is answered DUPLICATE exactly when the same tenant and key was ACCEPTED in the last 72 h, and the topic holds exactly one event per ACCEPTED |
| `Ingress.FollowsIff` | services/task-router/src/controllers/MessageController.ts:77-183 | for any set of failures that may happen: all answers follow the history, over all regular runs, if and only if none of them is of the dedup read, the publish or the log, nor a lost cache write |
| `Ingress.TenantsDoNotInterfere` | services/task-router/src/services/DeduplicationService.ts:34-63 | whatever fails, a tenant gets exactly the answers it would get had it been alone |
| `Ingress.DedupKeyIdentifiesContent` | services/task-router/src/services/HashService.ts:4-12 | with a collision-free hash, dedup keys are equal exactly when the contents are |
| `Ingress.RetryAfterFailedPublish` | services/task-router/src/controllers/MessageController.ts:95-183 | after a failed publish a retry is answered DUPLICATE; no event was enqueued exactly when the publish was lost |
| `Ingress.DuplicatesBackedIff` | services/task-router/src/controllers/MessageController.ts:95-183 | for any set of failures that may happen: every DUPLICATE answer has an event of its tenant and key on the topic, over all runs, if and only if no publish may be lost |
| `Ingress.AcceptedOnceIff` | services/task-router/src/services/DeduplicationService.ts:42-52 | the read and the cache write being two commands, a tenant and key is accepted at most once in 72 h over all interleavings if and only if requests do not overlap |

## Left out

- Kafka, Redis and MySQL clients, connection pools, heartbeats, offset bookkeeping of the consumer library: only the operations the code calls are steps.
- Providers: a nondeterministic outcome; headers of a call are not recorded, which provider serves a channel and the provider's own idempotency are not part of this model.
- Contents of the log and error topics: only whether publishing them throws, which decides control flow.
- Loss of due retries when a republish throws: the closed loops exclude it by assumption. A process that dies after the delete is a delete that takes effect unseen in `RetryQueue`.
- Order of a poll's items with equal scores: they come in some order.
- Republished retries as Kafka input (four fields, so undefined tenant and keys), unparsable JSON, and negative attempt numbers in a payload or event: an attempt is a natural number here.
- Concurrent calls of processDelivery for one message: calls come one after another in the timed result; the interleaved results are those of the retry set and of the workers.
- Row statuses in the worker model, and other transactions running inside one insert: an insert is one step there.
- Liveness: that polls happen and events are consumed; what is proved is that nothing is lost and that the number of events and calls is bounded.
- The dedup cache of the older stack: its answer is arbitrary, so that a retry refused by the cache counts as success without a delivered row is not excluded.
- `getPendingRetries` of the older stack: the same range read and delete without the catch block; its loop uses the polling step of the wired stack.
- Warming the ingress cache and reading cached responses: nothing writes them, so a duplicate is answered with the new id.
- `cancelRetry`, `getRetryStats`, metrics, health checks, logger service, routes and the unwired ingress duplicate: plumbing or easy members.
- Batch.InsertCovers: one direction only, since a message skipped for its id or content may be covered by a later one with its key; `Batch.InsertCoversIff` is exact when no key occurs twice.
- EachBatch.ReplayIsNoOpIff: for batches in which no new key occurs twice and no id is used again, for the same reason.
- EachBatch.OffsetSafe: speaks of a batch message with the same id because the handler skips by message id; `EachBatch.OffsetSafeByKey` gives the message's own key.
