# Accounting and admission of the gateway, in Dafny

This project models the parts of the gateway that account for requests and decide whether to admit them, and proves what they promise over all inputs and all runs:

- the observer of response bodies: content decoding, the incremental SSE and JSON parsers, and the settlement of every attempt (`UsageParsing`, `ResponseObserver`, `ObservedStream`), and what they read, said of lines, events and bodies (`UsageReading`);
- ingestion of usage events: queue, batching writer with retries, deduplicating table, price refresh, backfill and retention (`UsageStore`, `UsageIngestion`), and many observed responses in front of it (`UsagePipeline`);
- pricing: decimal rates, cost rounding, rule lookup (`Numeric`, `Decimal`, `Pricing`);
- the usage report and its calendar (`UsageModel`, `Calendar`, `UsageReport`);
- the rate-limit state machine (`Limits`, `LimitHistory`, `LimitMirrors`, `LimitAvailability`, `LimitFlush`, `LimitUsageJson`), with its verdicts in plain numbers (`LimitVerdict`);
- concurrency slots in Redis and in memory (`Slots`);
- the performance monitor and the request audit (`Milestones`, `MilestoneDigest`, `StreamOutcome`, `PerformanceLifecycle`, `PerformancePlaces`, `FingerprintAudit`, `AuditCounters`).

`dafny verify dfyconfig.toml` checks everything. `Wrappers` holds Option and Result.

## How it is modelled

Objects the source updates in place are classes whose methods are proved equal to a function of the old state; the theorems are about those functions. Concurrent protocols (slots, ingestion, audit, performance service) are state machines: a run is any sequence of atomic steps in any order, and a step that is not enabled changes nothing. Time is a parameter. JSON decoding is a parameter from bytes to an optional event. Decompressors are parameters constrained only to be incremental: more input adds output and never undoes a failure. Saturation, i32/i64/i128 limits and truncating casts are explicit.

Some promises turned out to hold only under a condition. Each has its exact condition:

- The Redis slot protocol can refuse a caller although a slot is free, because a caller that overshot has not undone its increment yet (`Slots.DenialWithoutHolder`). `Slots.DenialsToComeExactly` says from which states this can still happen, `Slots.OvershootNeedsFull` what must have happened before.
- A loss of availability can go unreported to the database when an older trace hides it: a warning status, a ban on record even if expired, a window at the threshold even if already reset (`LimitFlush.SilentLossExactly`).
- The rate-limit column is wrong when a ban outlasts the bottleneck it is dropped for, or the status is rejected (`LimitAvailability.ColumnIsExactWhen`); one ordinary 429 is enough for the former (`LimitAvailability.ColumnCanEndTooEarly`).
- The SQL sum of unpriced tokens and the pricing's own sum agree exactly while the sum fits an i64 (`Pricing.SqlUnpricedAgrees`).
- A response whose status is outside 200..599 ends its request in the audit but is counted nowhere; `FingerprintAudit.ReportsConserveRequests` carries that term.

## Model

| member | source | states |
|---|---|---|
| `UsageParsing.SseFeedConcat` | src/service/usage.rs:1081-1102 | Feeding a byte string in any two pieces leaves the parser in the state that feeding it whole does. |
| `UsageParsing.FeedIsFoldOfLines` | src/service/usage.rs:1081-1162 | The byte loop is the fold of line processing over the newline-terminated lines, up to the first stop, invalid line or oversize point, followed by the open last line. |
| `UsageParsing.EveryInputSplits` | src/service/usage.rs:1081-1102 | Every input has such a decomposition into lines and a tail. |
| `UsageParsing.SseFeedValid` | src/service/usage.rs:1067-1162 | The line buffer never holds a newline or exceeds the limit, complete and invalid never hold together, and nothing is observed after message_stop. |
| `UsageParsing.ProcessLineValid` | src/service/usage.rs:1111-1162 | One line sets at most one of the two flags and completes the parser exactly on message_stop. |
| `UsageParsing.SseFinishValid` | src/service/usage.rs:1104-1109 | Processing the unterminated last line at the end keeps the parser's invariant. |
| `UsageParsing.JsonFeedConcat` | src/service/usage.rs:1033-1044 | How the body is cut does not matter to the buffering parser, oversize included. |
| `UsageParsing.SseParser.Feed` | src/service/usage.rs:1081-1102 | The in-place parser moves from its state to the state the byte fold gives. |
| `UsageParsing.SseParser.Finish` | src/service/usage.rs:1104-1109 | The in-place finish is the specified one. |
| `UsageParsing.SseParser.ProcessOwnLine` | src/service/usage.rs:1111-1162 | Line processing with its field updates is the specified transition. |
| `UsageParsing.JsonParser.Feed` | src/service/usage.rs:1033-1044 | The in-place buffer follows the specification. |
| `UsageParsing.JsonParser.Finish` | src/service/usage.rs:1046-1064 | So does its finish. |
| `ResponseObserver.SettledExactlyOnce` | src/service/usage.rs:532-565 | Whatever chunks, pending polls, errors and ends come, a stream that is dropped has settled its attempt exactly once, and later polls add nothing. |
| `ResponseObserver.RunAccounted` | src/service/usage.rs:601-665 | At every point of a run there is one settlement if and only if the attempt is gone, and a parse failure is counted with a rejected settlement only. |
| `ResponseObserver.SettlementDependsOnBodyOnly` | src/service/usage.rs:532-665 | For every encoding, a body read to its normal end settles as decoding, parsing and settling the concatenated bytes in one go does; chunk boundaries and the decompressor's eagerness leave no trace. |
| `UsageReading.SubmittedSays` | src/service/usage.rs:1111-1173 | In what a streamed body submits, every token counter is the last value some message_start or message_delta carried for it, else zero, and id, model and stop reason are the last ones carried; a body that is not rejected is submitted exactly when some event carried a counter. |
| `UsageReading.StreamReading` | src/service/usage.rs:1081-1162 | Which events a text of lines shows, in order, up to the first that ends the reading, and when the text is rejected: an undecodable payload, unusable usage, or a line beyond 256 KiB. |
| `UsageReading.PayloadIsWhatFollows` | src/service/usage.rs:1112-1119 | The payload of a line is what follows `data:` and at most one space, without one carriage return; other lines have none. |
| `UsageReading.JsonSays` | src/service/usage.rs:1033-1064 | What a buffered body is read as: its own id, model, stop reason and counters, missing counters being zero; a body that is too long, undecodable or has unusable usage is rejected. |
| `UsageReading.JsonSettles` | src/service/usage.rs:635-665 | And what is settled for it. |
| `UsageReading.DropSettles` | src/service/usage.rs:558-565 | A client that goes away leaves the settlement of what had come, marked as dropped unless it was made before. |
| `UsageReading.ErrorEndsLikeTheEnd` | src/service/usage.rs:540-545 | A transport error settles what had come as a normal end would. |
| `UsageReading.FailureKind` | src/service/usage.rs:504-517 | A rejected plain body is counted once, as oversize exactly when its reading is, and no other body is. |
| `UsageReading.EveryChunkIsABatch` | src/service/usage.rs:601-620 | A monitored response counts every chunk with bytes, also after it has been settled. |
| `UsageReading.TruncationIsToleratedOnDrop` | src/service/usage.rs:943-954 | A truncated compressed body is a failure at its end, but not when the client went away and usage had been read. |
| `UsageReading.ZlibHeader` | src/service/usage.rs:808-812 | The sniff takes a body for zlib exactly on a header of section 2.2 of RFC 1950, and for raw deflate otherwise. |
| `ResponseObserver.SniffTracks` | src/service/usage.rs:794-829 | The two-byte deflate sniff picks the codec from the whole body's first bytes, however they arrive. |
| `ResponseObserver.FeedTracks` | src/service/usage.rs:937-941 | After any bytes, decoder and parser stand where those bytes as a whole put them. |
| `ResponseObserver.FinishTracks` | src/service/usage.rs:943-954 | At a normal end rejection and parser agree with the one-shot reading of the body. |
| `ObservedStream.EncodedResponseParser.Feed` | src/service/usage.rs:937-941 | The in-place decoder and parser follow the specification. |
| `ObservedStream.EncodedResponseParser.FeedSniffing` | src/service/usage.rs:794-829 | So does the sniffing decoder's buffer. |
| `ObservedStream.EncodedResponseParser.Finish` | src/service/usage.rs:943-954 | So does the finish, with its tolerance of an incomplete transport. |
| `ObservedStream.Observer.Feed` | src/service/usage.rs:601-620 | Observing a chunk records, reports to the monitor and settles early as specified. |
| `ObservedStream.Observer.Finish` | src/service/usage.rs:622-633 | Finishing settles as specified. |
| `ObservedStream.Observer.FinalizeAttempt` | src/service/usage.rs:635-665 | The attempt is taken and settled as submitted, rejected or without usage, as specified. |
| `ObservedStream.UsageObservedStream.Handle` | src/service/usage.rs:532-556 | A poll passes bytes to the observer, and takes and finishes it on error and end. |
| `ObservedStream.UsageObservedStream.Live` | src/service/usage.rs:532-565 | A stream handled to its drop has exactly one settlement. |
| `Milestones.ReplayTimes` | src/service/performance.rs:287-409 | On every disciplined log of calls first byte, first content, first text and completion are in order. |
| `Milestones.ReplayGaps` | src/service/performance.rs:395-409 | The stored gap is the largest gap between consecutive contents. |
| `Milestones.ReplayBatches` | src/service/performance.rs:287-294 | The batch counter is the number of distinct batches with content. |
| `Milestones.StreamMilestones` | src/service/performance.rs:438-480 | The completed event of a streamed request has ordered milestones up to its duration, the largest gap including the tail, and the batch count. |
| `Milestones.RunKeepsLog` | src/service/usage.rs:601-633 | Every run of observer, decoder and parser makes a disciplined log: bytes before anything read from them, nothing after message_stop. |
| `Milestones.ObservedStreamMilestones` | src/service/usage.rs:601-633 | So the milestones hold for every streamed response, however encoded, cut, aborted or dropped. |
| `Milestones.ObservedBodyMilestones` | src/service/performance.rs:287-389 | For a response that is not streamed, first byte, completion and duration are in order, on every run of its observer. |
| `MilestoneDigest.StoredEvent` | src/service/performance.rs:438-462 | The stored event: first byte, first content and first text are the times of the first of their kind, completion that of the end of the message, and the outcome follows from error events, abort, rejection and completion in this order. |
| `MilestoneDigest.ReplayDigested` | src/service/performance.rs:287-409 | At every point of a log each field of the timing state is the first or last time of its kind, and none without one. |
| `StreamOutcome.SucceedsExactly` | src/service/performance.rs:438-462 | A streamed response read to its normal end is stored as a success if and only if its body decodes and parses without rejection, reaches message_stop, shows no error event, no failure was recorded and the client did not abort. |
| `StreamOutcome.EndShows` | src/service/usage.rs:601-633 | The monitor is shown exactly the events of the body parsed in one go, and a parse failure last exactly when the body is rejected. |
| `StreamOutcome.FailuresSpareTheMilestones` | src/service/performance.rs:277-283 | Failures recorded at any time change the outcome only; the milestones stand. |
| `StreamOutcome.FailureIsStored` | src/service/performance.rs:277-283 | With recorded failures the outcome stored is the first of them, unless an error event was shown. |
| `Milestones.RequestMonitor.RecordFailure` | src/service/performance.rs:277-283 | The first recorded outcome stays, and nothing changes after the finish. |
| `Milestones.RequestMonitor.Update` | src/service/performance.rs:240-248 | The fields updated under the mutex follow the specification, and nothing changes after the finish. |
| `Milestones.RequestMonitor.AddContent` | src/service/performance.rs:395-409 | Content updates phase, gap, batch and first-content fields as specified. |
| `Milestones.RequestMonitor.Complete` | src/service/performance.rs:438-480 | The finish computes duration, tail gap and outcome as specified. |
| `PerformanceLifecycle.CompletesOnce` | src/service/performance.rs:411-548 | A guard completes exactly once however its response body ends or is dropped, and counts as aborted exactly when no end came before the drop. |
| `PerformanceLifecycle.EndingPolls` | src/service/performance.rs:523-548 | A body error, the end of the body and its last frame end it; nothing else does. |
| `PerformanceLifecycle.CompletionConserved` | src/service/performance.rs:121-175 | Over every interleaving begins equal live plus queued plus batched plus persisted plus dropped plus expired, no id is in two places, and the active map holds live guards only, within its limit. |
| `PerformanceLifecycle.RunPlaced` | src/service/performance.rs:576-625 | The writer keeps ids distinct and inserts each at most once. |
| `PerformancePlaces.BeginEnters` | src/service/performance.rs:121-175 | A begun request enters the active map exactly when fewer than 10 000 are there. |
| `PerformancePlaces.FinishQueues` | src/service/performance.rs:483-508 | A finished one is queued unless it is too old or 4096 events wait. |
| `PerformancePlaces.BatchFills` | src/service/performance.rs:581-589 | The writer takes events from the front of the queue, up to 128. |
| `PerformancePlaces.KeepSplits` | src/service/performance.rs:590-596 | The age filter works event by event and keeps the order. |
| `PerformancePlaces.BatchIsWritten` | src/service/performance.rs:590-623 | Too old events count as expired, inserted ones are stored and count as persisted, those of a batch given up count as dropped and failed. |
| `PerformanceLifecycle.PerformanceService.BeginRequest` | src/service/performance.rs:121-175 | Beginning a request is the machine's step. |
| `PerformanceLifecycle.PerformanceService.FinishRequest` | src/service/performance.rs:438-508 | Finishing one removes it from the active map and queues, drops or expires its event. |
| `PerformanceLifecycle.PerformanceService.RetainFresh` | src/service/performance.rs:576-625 | The writer's filter keeps the order and counts what it expires. |
| `PerformanceLifecycle.PerformanceService.InsertBatch` | src/service/performance.rs:576-625 | Inserting a batch is the machine's step. |
| `FingerprintAudit.InFlightIsExact` | src/service/fingerprint_audit.rs:384-475 | However much the bounded queue loses, in every prefix of processed messages endings are at most requests, so the saturating decrement never clamps and the in-flight count is the exact difference. |
| `FingerprintAudit.ReportsConserveRequests` | src/service/fingerprint_audit.rs:517-564 | Across hourly clears, requests equal endings plus requests in flight plus responses whose status no counter stands for. |
| `FingerprintAudit.TotalsMatchMessages` | src/service/fingerprint_audit.rs:384-475 | Reported plus current counters are exactly the processed messages, by kind. |
| `AuditCounters.CountersCountTheirKind` | src/service/fingerprint_audit.rs:384-475 | Over all hourly clears each counter of an account has counted exactly the processed messages of its kind: requests, token counts, each class of status, failed sends and cancellations. |
| `AuditCounters.MessagesAreLostWhenFull` | src/service/fingerprint_audit.rs:332-341 | A message is queued while fewer than 1024 wait and counted as dropped otherwise. |
| `AuditCounters.WorkerTakesAndReports` | src/service/fingerprint_audit.rs:517-564 | Messages are taken from the front; the hourly report moves the counters and starts the drop count afresh. |
| `FingerprintAudit.RunCovered` | src/service/fingerprint_audit.rs:245-273 | Each active guard has a request in the log that no ending has answered, so a dropped request can never take away another's. |
| `FingerprintAudit.AuditService.BeginRequest` | src/service/fingerprint_audit.rs:301-309 | A guard is active exactly when its request was queued. |
| `FingerprintAudit.AuditService.FinishGuard` | src/service/fingerprint_audit.rs:245-273 | Response, send failure and drop end an active guard once. |
| `FingerprintAudit.AuditService.SendOrDrop` | src/service/fingerprint_audit.rs:332-341 | A full queue drops the message and counts the drop. |
| `FingerprintAudit.AuditService.ProcessNext` | src/service/fingerprint_audit.rs:384-475 | The worker's counting is the machine's step. |
| `FingerprintAudit.AuditService.FlushSummaries` | src/service/fingerprint_audit.rs:517-564 | The hourly tick reports and clears the counters but not the in-flight map. |
| `UsageStore.InsertAllSound` | src/store/usage_store.rs:27-67 | A batch keeps stored rows, keeps keys unique, leaves every key of the batch present and adds exactly the rows it reports. |
| `UsageStore.FirstOneIsStored` | src/store/usage_store.rs:27-67 | Of several events with one key the first of the batch is stored, and only when none was before. |
| `UsageStore.UnpricedFromSound` | src/store/usage_store.rs:217-249 | The query returns unpriced ids in ascending order within its limit and misses none up to its last. |
| `UsageStore.UpdatesBackfill` | src/store/usage_store.rs:251-299 | Applying the updates turns exactly the queried rows that can be priced into their priced form, one flip each. |
| `UsageStore.BackfillAdvances` | src/service/usage.rs:1501-1534 | A round moves the cursor strictly forward past everything it has dealt with, and counts what it flipped. |
| `UsageStore.NothingPriceableLeft` | src/service/usage.rs:1501-1534 | After a backfill no unpriced row could be priced completely under a matching rule. |
| `UsageStore.BackfillSays` | src/service/usage.rs:1501-1534 | Every row without a complete price gets the given list's where that is complete under a matching rule; every other row stays. |
| `UsageStore.Store.InsertBatch` | src/store/usage_store.rs:27-67 | The insert loop leaves the specified table and counts inserted and duplicate rows. |
| `UsageStore.Store.ApplyPricingUpdates` | src/store/usage_store.rs:251-299 | The update loop changes incomplete rows only, and counts them. |
| `UsageStore.Store.BackfillUnpriced` | src/service/usage.rs:1501-1534 | The loop ends; every row is in its backfilled form, complete rows are untouched, and the result is the number of rows flipped. |
| `UsageIngestion.DedupKeyIsInjective` | src/service/usage.rs:402-409 | Two events share a key only when they name the same identifier of the same kind. |
| `UsageIngestion.RunConserves` | src/service/usage.rs:445-458 | On every run observed equals dropped plus queued plus batched plus persisted plus duplicate plus failed, in the order the queue accepted them; no key has two rows; persisted equals the rows stored plus those retired. |
| `UsageIngestion.SubmitQueues` | src/service/usage.rs:383-459 | A response with usage is dropped exactly when the writer is gone or 4096 events wait; otherwise one event joins the queue with the parsed tokens, the parsed model unless blank, the key of the best identifier, and the current list's price. |
| `UsageIngestion.RoundWrites` | src/service/usage.rs:1384-1434 | A round takes the first events of the queue; with at most three failed inserts each of their keys is then stored, new rows are those events with at most a completed price, and each event counts as persisted or duplicate; after a fourth failure all count as failed. |
| `UsageIngestion.BackgroundSteps` | src/service/usage.rs:1439-1550 | A refreshed list becomes the current one, a backfill update completes one row by its own list or leaves it, and retention removes a row. |
| `UsageIngestion.TakenIsTheLeast` | src/service/usage.rs:1384-1393 | A round takes the least of what waits, what comes in time and 128. |
| `UsageIngestion.FailuresComeFirst` | src/service/usage.rs:1410-1417 | The insert that commits is the first that succeeds. |
| `UsageIngestion.OneRowPerWrittenKey` | src/store/usage_store.rs:27-67 | With nothing retired, persisted is the number of distinct keys in committed batches, however they were batched. |
| `UsageIngestion.RunPrices` | src/service/usage.rs:1395-1408 | On every run each queued, batched or stored event carries what one single price list gave for its own model and tokens. |
| `UsageIngestion.RowsEvolve` | src/store/usage_store.rs:251-299 | A row keeps its key, model and tokens until it is retired, its id is never used again, and its price changes at most once, from incomplete to complete. |
| `UsageIngestion.UsageService.Submit` | src/service/usage.rs:383-459 | Submitting prices, keys and queues or drops the event, and counts it. |
| `UsageIngestion.UsageService.RefreshPricing` | src/service/usage.rs:1447-1466 | A refreshed price list replaces the current one. |
| `UsageIngestion.UsageService.WriteRound` | src/service/usage.rs:1378-1436 | One turn of the writer is the run of receive, close, insert and retry steps that the arrivals and outcomes determine. |
| `UsageIngestion.UsageService.CollectBatch` | src/service/usage.rs:1384-1393 | A batch is the longest prefix of the queue that comes in time, up to 128 events. |
| `UsageIngestion.UsageService.RepriceBatch` | src/service/usage.rs:1399-1408 | Only incomplete events change price, and only to a complete one. |
| `UsageIngestion.UsageService.InsertWithRetries` | src/service/usage.rs:1410-1434 | Four attempts, a commit at the first success, the whole batch counted as failed otherwise. |
| `UsagePipeline.PipelineConserves` | src/service/usage.rs:635-665 | Over every interleaving of many responses with the writer, the responses settled with usage are the events dropped, queued, batched, persisted, duplicate or failed, and the parse failures counted are the responses rejected. |
| `UsagePipeline.CountersFollowBodies` | src/service/usage.rs:532-665 | Once every response has been read to its end, both counters are what the bodies alone say. |
| `UsagePipeline.PollSettles` | src/service/usage.rs:635-665 | One poll settles an open response at most once and leaves a settled one alone. |
| `UsagePipeline.StepsReachTheirParts` | src/service/usage.rs:532-556 | Opening, polling and background work each reach the response or the ingestion they concern. |
| `Decimal.ParsedRateIsExact` | src/service/usage_pricing.rs:497-546 | An accepted rate fits an i64 and is the decimal literal with its exponent, times 10^scale, rounded half up, if and only if the number of decimals fits the i32 it is cast to or the result is zero. |
| `Decimal.AcceptedExactly` | src/service/usage_pricing.rs:497-546 | Exactly which texts are accepted: literals without sign whose digits fit an i128 and whose value, scaled by at most 38 places, fits an i64. |
| `Decimal.OverrideAcceptedExactly` | src/service/usage_pricing.rs:602-630 | Exactly which override texts are accepted, and as what value. |
| `Decimal.TrimCuts` | src/service/usage_pricing.rs:498-498 | Trimming cuts whitespace off both ends and nothing else. |
| `Decimal.FetchedRateIsExact` | src/service/usage_pricing.rs:327-351 | In a response of at most 8 MiB, the only ones read, that is always so: the accepted value is the one correctly rounded value. |
| `Decimal.UsdRateAgreesWithDecimal` | src/service/usage_pricing.rs:602-630 | Every text the override parser accepts gets the same value from the snapshot parser at scale 9. |
| `Pricing.ComponentCostIsExact` | src/service/usage_pricing.rs:557-565 | For non-negative input no i128 step overflows, and the cost is the product over a million rounded half up, or exceeds i64. |
| `Pricing.MultiplyRateIsExact` | src/service/usage_pricing.rs:548-555 | A derived cache rate is rounded half up or does not fit. |
| `Pricing.CompleteExactly` | src/service/usage_pricing.rs:135-199 | Complete holds exactly when no component with tokens lacks a cost, saturation notwithstanding. |
| `Pricing.KnownCostBound` | src/service/usage_pricing.rs:135-199 | The known cost is within 2.5 nano-USD of the exact sum of the priced components unless it sits at the i64 ceiling. |
| `Pricing.CompletePriceBound` | src/service/usage_pricing.rs:135-199 | A complete, unsaturated price is within 2.5 nano-USD of the exact cost at the rates of the rule and tier found. |
| `Pricing.PriceSays` | src/service/usage_pricing.rs:135-199 | The whole price: each component costs its own tokens times its own rate, of the long-context tier when there is one and the input exceeds its threshold, rounded half up, and is unknown without a rate; known cost and unpriced tokens are the capped sums, complete means nothing unpriced. |
| `Pricing.SqlUnpricedAgrees` | src/store/usage_store.rs:94-101 | The SQL sum of unpriced tokens is the pricing's sum exactly when it fits an i64. |
| `Pricing.RuleLookupIsDirect` | src/service/usage_pricing.rs:201-214 | The longest-match scan over all rules is one lookup under the name without its dash and eight digits. |
| `Pricing.FoundRuleIsFor` | src/service/usage_pricing.rs:201-214 | The rule found is the override of the name, else the rule of the dashed name, else that of the name without a dash and eight digits, else none. |
| `Pricing.NamesAreNormalized` | src/service/usage_pricing.rs:202-203 | Names are compared with ASCII letters in lower case and dots as dashes, character by character. |
| `Pricing.AtMostOneMatch` | src/service/usage_pricing.rs:632-639 | Past the exact key at most one rule matches. |
| `Pricing.DatedKeyIsUnique` | src/service/usage_pricing.rs:632-639 | A key other than the model matches exactly when it is the model without a dated suffix. |
| `UsageModel.PlusAssociates` | src/model/usage.rs:125-138 | On non-negative counters saturating metric addition is associative, so order of folding does not matter. |
| `UsageModel.PlusShowsSums` | src/model/usage.rs:125-138 | Added metrics show the exact sums of all nine counters, each capped at the largest i64, and are complete when nothing is unpriced. |
| `UsageModel.TotalIsCappedSum` | src/model/usage.rs:30-38 | The token total is the capped sum of its five components. |
| `UsageModel.SaturatingAddAssociatesExactly` | src/model/usage.rs:43-54 | Three terms of any sign may be grouped either way exactly when no partial sum saturates while the remaining term leads back. |
| `Calendar.DayNumberOrders` | src/service/usage.rs:1300-1310 | Day numbers order dates as the calendar does. |
| `Calendar.NextDayNumber` | src/service/usage.rs:1319-1339 | The next date has the next day number, across months and leap years. |
| `Calendar.SgDayRoundTrips` | src/service/usage.rs:1300-1310 | Date of a day number and day number of a date undo each other, with day zero on 1 January 1970. |
| `Calendar.BucketStartMonotone` | src/service/usage.rs:1360-1372 | Bucket starts never pass their date and follow its order, for days, weeks and months. |
| `Calendar.BucketStartIsNatural` | src/service/usage.rs:1360-1372 | Weeks start on the Monday at or before a date, months on the first, days on themselves. |
| `Calendar.IntervalHoldsItsDays` | src/service/usage.rs:1374-1376 | A half-open UTC interval between two Singapore midnights holds exactly the instants of those Singapore days. |
| `Calendar.MidnightsAreEightHoursEarly` | src/service/usage.rs:1374-1376 | Singapore midnights are 24 hours apart and eight hours before those of UTC. |
| `UsageReport.BuildBuckets` | src/service/usage.rs:1319-1358 | The buckets cover the date range once, contiguously, each with the sum of its days. |
| `UsageReport.Report` | src/service/usage.rs:292-361 | Summary, buckets and breakdown are the sums over all, per bucket and per group. |
| `UsageReport.ReportIsExact` | src/service/usage.rs:306-361 | For non-negative rows the summary shows the exact sums of all rows, each bucket those of its days, each group those of its rows, capped at the largest i64. |
| `UsageReport.GroupsAreIds` | src/service/usage.rs:1312-1317 | Rows share a group exactly when they share the account, token or model grouped by. |
| `UsageReport.ViewsAgree` | src/service/usage.rs:306-326 | For non-negative rows in range the summary is the fold of the buckets and of the breakdown in any order, under saturation too. |
| `UsageReport.GroupsFoldToTotal` | src/model/usage.rs:125-138 | Folding saturated group totals over any listing of disjoint groups is folding the rows. |
| `UsageReport.BucketsPartitionTime` | src/service/usage.rs:1319-1376 | Every instant of the range lies in exactly one bucket, that of its Singapore day, and no other instant in any. |
| `Slots.SlotSafety` | src/store/redis.rs:83-101 | Under every interleaving the counter is the unreleased grants plus the overshooting callers, never negative; grants and live holders never exceed the maximum; releases are by different callers. |
| `Slots.QuiescentCounter` | src/service/gateway.rs:71-83 | With no caller inside the protocol the counter is the live holders plus the slots lost to a disarm, a cancellation or a drop outside a runtime. |
| `Slots.HolderEnds` | src/service/gateway.rs:65-83 | A holder dropped inside a runtime has its release run once; dropped outside one or disarmed, its slot is never given back. |
| `Slots.CancelledCallerLoses` | src/store/redis.rs:83-97 | A caller cancelled between its increment and the outcome keeps its count in the counter for good. |
| `Slots.NothingComesBack` | src/service/gateway.rs:71-83 | What was released, lost or denied changes nothing any more. |
| `Slots.StepRefinesMemory` | src/store/memory.rs:73-91 | Seen through its grants every step is an atomic grant, an atomic release or nothing. |
| `Slots.GrantedOnlyIfAtomic` | src/store/memory.rs:73-82 | Whoever is granted would be granted by the atomic store. |
| `Slots.DenialsToComeExactly` | src/store/redis.rs:83-101 | From a reachable state, some continuation in which nobody else overshoots leads to an answer that differs from the atomic store's, if and only if somebody is overshooting now and not every slot is lost. |
| `Slots.OvershootNeedsFull` | src/store/redis.rs:92-96 | A caller overshoots only after all slots have been granted at one time. |
| `Slots.DenialWithoutHolder` | src/store/redis.rs:83-97 | A run in which the counter refuses although no slot is granted. |
| `Slots.MemoryStore.AcquireSlot` | src/store/memory.rs:73-82 | The mutex-held version is atomic and touches its key only. |
| `Slots.MemoryStore.ReleaseSlot` | src/store/memory.rs:84-91 | So is the release, which never goes below zero. |
| `Slots.RedisSlots.IncrementFor` | src/store/redis.rs:85-88 | The increment and the value it returns. |
| `Slots.RedisSlots.CheckFor` | src/store/redis.rs:92-97 | The comparison with the maximum, a separate step. |
| `Slots.RedisSlots.UndoFor` | src/store/redis.rs:92-95 | The decrement after a refusal. |
| `Slots.RedisSlots.DropHolderOf` | src/service/gateway.rs:71-83 | Dropping a holder spawns its release, or loses the slot outside a runtime. |
| `Slots.RedisSlots.DisarmHolderOf` | src/service/gateway.rs:65-68 | Disarming keeps the drop from releasing. |
| `LimitHistory.RunHoldsTheLatest` | src/service/limit.rs:395-455 | After any run of headers and usage reports, each account-level field is the latest value carried for it: windows, status, reset, ban and all four counters. |
| `LimitHistory.RunHoldsTheNotes` | src/service/limit.rs:801-820 | Claim, reset, fallback and overage fields are the latest ones carried. |
| `LimitHistory.RunHoldsGroups` | src/service/limit.rs:797-860 | A model group's window and ban depend only on what was carried for that group, with the routing of unqualified windows and the replacement by reports. |
| `LimitHistory.CountersCarry` | src/service/limit.rs:601-616 | Each of the four counters is overwritten or kept on its own. |
| `LimitMirrors.RunMirrors` | src/service/limit.rs:781-795 | Over any run the Sonnet mirrors equal the scoped entries and every scoped key is its item's normalized group. |
| `LimitMirrors.FallbacksNeverMatter` | src/service/limit.rs:1042-1067 | On every reachable state the fallbacks to the mirrors never change the verdict. |
| `LimitMirrors.NormalGroupIsNormal` | src/service/limit.rs:719-726 | Trimming and lower-casing a group name is idempotent. |
| `LimitVerdict.ListedGroupName` | src/service/limit.rs:719-726 | A report's group name is taken without surrounding whitespace and in lower case, character by character. |
| `LimitMirrors.ApplyUsage` | src/service/limit.rs:669-704 | The in-place absorption of a usage report is the specified one. |
| `LimitMirrors.LimitStore.AbsorbHeaders` | src/service/limit.rs:261-323 | Absorbing headers replaces one account's state as specified and reports whether to write it back. |
| `LimitMirrors.LimitStore.IngestUsageJson` | src/service/limit.rs:374-380 | Absorbing a report replaces one account's state as specified. |
| `LimitMirrors.LimitStore.QueryAvailability` | src/service/limit.rs:327-333 | The answer is the mirror-free verdict on everything the account has absorbed. |
| `LimitVerdict.RefusedExactly` | src/service/limit.rs:1001-1083 | An account is refused to a class exactly when its status is rejected, a ban lasts, a counter has less than 3 % left before its reset, a window is 97 % used before its reset, or the class is Sonnet or Fable and its own group is banned, rejected or full. |
| `LimitVerdict.ReportedExactly` | src/service/limit.rs:1001-1083 | The first of these in a fixed order is reported, with its own time. |
| `LimitVerdict.ClaimBlocksItsClass` | src/service/limit.rs:773-779 | A 429 with the Sonnet week's claim blocks Sonnet, with the overage-included week's claim Fable, until the reset it dates or for the delay it asks for. |
| `LimitVerdict.BareRejectionBlocks` | src/service/limit.rs:438-452 | A 429 without headers blocks the class of the request for its delay or a minute, and everybody when that is Opus. |
| `LimitVerdict.AccountRejectionBlocks` | src/service/limit.rs:430-436 | One with headers, no group's claim and no reset bans the account for its delay. |
| `LimitVerdict.WindowsBelong` | src/service/limit.rs:797-860 | An explicit window is its group's; an unqualified 7d window is the account's unless the claim names a group that got no explicit one. |
| `LimitAvailability.AvailabilityIsMonotone` | src/service/limit.rs:1001-1083 | Time alone never makes an account unavailable to a class, in any state. |
| `LimitAvailability.UntilIsALowerBound` | src/service/limit.rs:1001-1083 | Until the time given with a refusal, the refusal stands. |
| `LimitAvailability.BottleneckIsExact` | src/service/limit.rs:983-999 | With no rejected status and no running ban, the account is unavailable to the unscoped class at any later time exactly when the bottleneck lies beyond it. |
| `LimitAvailability.ColumnIsExactWhen` | src/service/limit.rs:343-370 | The stored limit tells availability at every later time exactly when the status is not rejected and no ban outlasts the bottleneck. |
| `LimitAvailability.ColumnCanEndTooEarly` | src/service/limit.rs:343-370 | A 429 with a full 5h window and a longer delay leads to a state whose column is wrong. |
| `LimitAvailability.ScopedClaimSparesTheAccount` | src/service/limit.rs:797-860 | A response with a model group's claim keeps the account's status and ban. |
| `LimitAvailability.ScopedClaimIsIsolated` | src/service/limit.rs:395-455 | It changes another class's availability at any time only through a 5h window, counters, an account-level 7d window or that class's explicit window. |
| `LimitAvailability.BareRejectionIsIsolated` | src/service/limit.rs:438-452 | A 429 without headers to a scoped model leaves every other class as it was. |
| `LimitAvailability.ScopedRejectionBlocks` | src/service/limit.rs:419-429 | A claimed 429 blocks the group's class until its reset or for its delay. |
| `LimitAvailability.ScopedRunNeverBlocksOthers` | src/service/limit.rs:395-455 | Over whole runs of such responses availability to other classes never changes. |
| `LimitFlush.NoSilentLossWhenFresh` | src/service/limit.rs:863-978 | From a fresh state every absorption that takes a class from available to unavailable yields a reason to write back. |
| `LimitVerdict.WrittenExactly` | src/service/limit.rs:863-978 | The state is written back exactly when it never was, not for five minutes, or status, a window, a ban or a counter got worse in one of the listed ways. |
| `LimitVerdict.WritingIsRemembered` | src/service/limit.rs:273-323 | The state is marked as written now exactly when there is a reason. |
| `LimitFlush.SilentLossExactly` | src/service/limit.rs:863-978 | From a recently written state some response that headers can carry takes a class away without a reason if and only if the state is not fresh. |
| `LimitFlush.WarningHidesRejection` | src/service/limit.rs:875-879 | After a warning, a rejection is no reason. |
| `LimitFlush.OldBanHidesNew` | src/service/limit.rs:905-907 | A ban on record hides the next one. |
| `LimitFlush.OldWindowHidesNew` | src/service/limit.rs:934-942 | A window at the threshold, though reset, hides that it is full again. |
| `LimitFlush.OldScopedWindowHidesNew` | src/service/limit.rs:961-967 | So does a model group's window. |
| `LimitFlush.ScopedWarningHidesRejection` | src/service/limit.rs:950-959 | A model group's window under warning hides its rejection. |
| `LimitUsageJson.UsageJsonRoundTrip` | src/service/limit.rs:1093-1193 | The JSON written for the front end has the form of an upstream usage report and, taken as one, says exactly the state's windows without status and threshold, except negative ones outside Sonnet. |
| `LimitUsageJson.ReadBackAvailability` | src/service/limit.rs:1093-1193 | Someone other than the gateway who takes the written JSON for a usage report can conclude exactly which classes a full window refuses, and nothing of bans, counters or rejections. |
| `LimitUsageJson.FrontEndSeesOneSonnet` | src/service/limit.rs:1093-1112 | After any run the written JSON lists each group once, and its fixed Sonnet field equals the listed Sonnet entry or both are missing. |

## Left out

- LimitUsageJson.UsageJsonRoundTrip: covers the fields a usage report has, not status, bans, counters and notes. The gateway itself never reads the written JSON back; it goes to the front end. The order of the written groups is a parameter.
- ResponseObserver.SettlementDependsOnBodyOnly: says which settlement is made and that a rejection is one; whether a rejected compressed body is counted as oversize or malformed may depend on how eagerly the decompressor delivered.
- The insides of gzip, inflate, brotli and zstd, the fallback when a zstd decoder cannot be created, and what an empty chunk does to it; JSON, RFC 3339 and header-value parsing.
- Parsing of the content-encoding header; the model starts from the coding it yields.
- Floating point: utilization is a finite real, so rounding of percentages and NaN headers are not covered.
- Dates past the clock's last representable day, where adding a long Retry-After would panic.
- Several clock readings within one absorption or verdict: the model takes one.
- Display names of model groups, the text of refusal reasons, and logging.
- Wrap-around of the u64 health counters; they are unbounded here. Row ids are handed out without gaps.
- Redis key expiry and edits of an account's concurrency: the slot bounds are claimed without them.
- Locks and sessions of the cache stores: each is a one-step fact about a single key.
- Commit ambiguity: a batch insert is done or not done as a whole; the backfill of the whole table is proved without concurrent inserts, single updates of it with them.
- Pricing snapshot download, validation and merging; a refresh brings some price list.
- Retention by day: a retired row is any row.
- Sorting and labelling of the report's breakdown, filters and dimension queries; the order of the breakdown is shown not to matter.
- Token and metric sums are values with `add_assign` given as the value it leaves, since the source uses them as plain copied structs.
- The telemetry completion channel, session, profile and feature records of the audit.
- Label fields and tokens-per-second of performance events, and the aggregation of active requests for display.
- Request rewriting, identity generation, fingerprints, TLS, routing, authentication and the front end.
