# Verified core of the host

This project models, in Dafny, the parts of the host whose correctness depends on many steps taken together, and proves
what those parts promise for every input, every run or every reachable state.

* **Credit budget** (`Billing`, `AiTable`, `GetOrQueue`, `Answers`, `VoiceMetering`, `AiSystem`, `AiService`,
  `CallerRuns`, `WorkerRuns`, `Refusals`, `VoiceAnswers`, `LateErrors`). Any number of `GetOrQueue` callers, voice
  webhooks and AI workers share one table. Each is cut into its store calls, every store call is one atomic step, and a
  step may fail, or happen and lose its reply. A run is any sequence of such steps. A caller carries the budget row it
  read as a private snapshot, which may be stale when its transaction commits. Conservation, single charging, the
  spending limit and the honesty of answers are proved over all runs. The class `Service` is the same protocol written
  as one uninterrupted call, proved to be a run of it and to do, case by case, what the rows call for.
* **AI worker** (`WorkerSteps`, `Batch`, `Evidence`, `Claims`). At-least-once deliveries with unconditional puts; batch
  processing against single processing; unique evidence ids; sanitised claims and citations.
* **Inbound communication** (`ClockText`, `Schedule`, `AvailabilityLoops`, `Availability`, `RateLimit`, `RateStamps`,
  `ActivityTexts`, `ContentStore`, `Mailbox`, `MailboxAnswers`, `MailboxProgress`). The availability scheduler, the
  sliding-window rate limiter over a bounded scan, and the write-once content store under mailbox rows created by
  inbound and outbound writers.
* **Hosted genesis** (`GenesisStore`, `GenesisActors`, `GenesisTrail`, `GenesisSystem`, `GenesisOutside`,
  `GenesisOutcome`, `GenesisStale`, `GenesisTurns`). Redelivered dispatches, turn runners, failure writers and the
  control plane update one session and its conversation by compare-and-swap. Every call of a dispatcher is recorded with
  its result and the rows it met where it is carried out, apart from the dispatcher's own decisions, and its answers are
  judged by that record and by the log of accepted writes.
* **Exact algorithms** (`Base64Url`, `Jws`, `PartitionWalk`).

`Base`, `Text`, `Filtering` and `Quotation` hold shared datatypes and string operations.

## What the code does not promise

Where an expected property is false of the code, the model keeps the code, exhibits an input, and states exactly when
the property holds.

* Prices are not monotone in the multiplier: a saturating discount can cost more than the unit multiplier
  (`Billing.DiscountCanCostMore`; exact condition in `Billing.PriceMonotoneInMultiplierIff`).
* A batch leaves a summary job with unparsable inputs queued and without a result, while a single delivery finishes it
  with an empty body (`Batch.UnreadableJobSplitsThem`; exact condition in `Batch.RowsAgreeIff` and
  `Batch.BatchMatchesSinglesIff`). For readable jobs the model-set, usage and problem columns can differ
  (`Batch.UnnamedModelSetDiffers`; exact conditions in `Batch.ColumnsAgreeIff`).
* The next availability start is not always the earliest available instant (`Schedule.LaterListedWindowIsPassedOver`;
  exact condition in `Schedule.NextStartIsEarliestIff`), and not always available itself
  (`Schedule.StartCanBeUnavailable`; exact condition in `Schedule.StartIsInsideIff`). A schedule whose usable windows
  all lack a readable end has a next start at every time and is never available (exact condition in
  `Schedule.NeverOpensIff`). The small hours after the evening of an overnight window are available if and only if the
  next weekday is listed too (`Schedule.OvernightHoursComeFirst`).
* A dispatch message that fails validation, or finds no conversation, fails its session even when that session has left
  progress (`GenesisOutside.LateInvalidMessageFailsReadyTurn`; exact condition in
  `GenesisOutside.DispatchWritesOutsideIff`).
* The rate limiter undercounts when newer rows hide receives (`RateLimit.BouncesHideReceive`; exact condition in
  `RateLimit.ScanIsExactIff`). A limit can refuse anything at all if and only if it is within the length of its scan
  (`RateLimit.LimitsCanRefuseIff`). Receipts are stamped with the time the message claims, and any number of back-dated
  messages pass at once (`RateLimit.BackdatedEscape`); a stamp is safe, for all logs that keep the limits, if and only
  if it is no earlier than the handling time or the limits are so wide that the scans alone leave room
  (`RateStamps.StampSafeIff`).
* A late failure of one worker replaces the ok of another (`LateErrors.LateErrorReplacesOk`; exact condition in
  `LateErrors.OkIsLostIff`). The result stays.
* An inbound voice webhook answers success without a charge when the call cannot be billed: nobody to charge is named,
  or its budget cannot be looked up (`VoiceAnswers.InboundSuccessWithoutCharge`; exact condition in
  `VoiceAnswers.SuccessIsChargedIff` for one delivery and in `VoiceAnswers.UnchargedSuccessIff` over all runs).
* A capture with content is answered with success although its row has no content, when a bounce created that row before
  (`MailboxAnswers.SuccessWithoutReachableContent`; exact condition in `MailboxAnswers.ContentReachableForeverIff`).
* The partition walk, documented as never truncating, returns a strict prefix when a page reports more items and a blank
  cursor (`PartitionWalk.BlankCursorTruncates`; exact condition in `PartitionWalk.CompleteIff`).
* Sanitising claims twice can shorten the reason, and only the reason (`Claims.LongReasonIsShortened`; exact condition
  in `Claims.SecondPassReasonIff`).
* Different texts can parse to the same JWS parts (`Jws.StrayBitsAreIgnored`; exact condition in
  `Jws.ParsedIsRebuiltIff`).

## Model

| member | source | states |
|---|---|---|
| `Billing.GuardIsExact` | internal/billing/billing.go:24-27 | the overflow guard fires if and only if base × bps + 9999 does not fit in 64 bits |
| `Billing.PricedCredits` | internal/billing/billing.go:14-29 | the price is never negative and is zero exactly for a non-positive base; no intermediate value leaves 64 bits |
| `Billing.PriceIsCeilingOrSaturated` | internal/billing/billing.go:14-29 | the price is the exact ceiling of base × bps / 10000, or the largest 64-bit value exactly when it saturates |
| `Billing.PriceMonotoneInBase` | internal/billing/billing.go:14-29 | a larger base never costs less, saturation included |
| `Billing.DiscountCanCostMore` | internal/billing/billing.go:18-26 | a concrete base whose discounted price exceeds its full price |
| `Billing.PriceMonotoneInMultiplierIff` | internal/billing/billing.go:14-29 | raising a positive multiplier lowers no price, except from a saturating discount to the unit multiplier on a base below the maximum |
| `Billing.PartsAreExact` | internal/billing/billing.go:46-55 | the overage part is exactly the growth of usage beyond the allowance, and the parts add up |
| `Billing.StaleSplit` | internal/billing/billing.go:46-55 | a split from a stale, smaller usage never overstates overage, and is exact while the debit fits the allowance |
| `Billing.SerialRunSplit` | internal/billing/billing.go:46-55 | over any serial run the included parts sum to min(included, end) − min(included, start) and the overage parts to the rest |
| `Billing.TypeMeaning` | internal/billing/billing.go:58-70 | the billing type tells on which side of the allowance the debit fell |
| `AiTable.ChargeBalances` | internal/ai/service.go:544-550 | adding an entry and its debit keeps usage and ledger in balance, with a split computed from any earlier usage |
| `AiTable.KeepsTransitive` | internal/ai/service.go:544-594 | growth, balance and table order of two writes in a row combine |
| `GetOrQueue.GuardedDebitFits` | internal/ai/service.go:562-594 | a debit without overage commits only where used plus requested is within the allowance, with a stale snapshot and with the used attribute absent |
| `GetOrQueue.DebitKeyIsFree` | internal/ai/service.go:544-549 | a new job row means that neither this debit key nor any charge for this job is in the ledger |
| `GetOrQueue.CommitKeeps` | internal/ai/service.go:453-594 | the debit transaction keeps the table in order, the accounts in balance and all charges in place, and leaves this request's charge in the ledger |
| `GetOrQueue.HitKeeps` | internal/ai/service.go:152-180 | recording a cache hit changes no total and no charge |
| `GetOrQueue.CreateKeeps` | internal/ai/service.go:310-355 | queueing without charge keeps the table in order and the accounts in balance |
| `GetOrQueue.CallerWrites` | internal/ai/service.go:110-150 | the only writes of a caller are the cache-hit entry, the free job and the debit transaction, each only where its conditions hold |
| `GetOrQueue.CallerStepKeeps` | internal/ai/service.go:110-150 | every step of a caller, whatever the store replies, keeps the table in order and in balance |
| `GetOrQueue.CallerStepOk` | internal/ai/service.go:453-645 | what a caller knows between its steps stays true: its snapshot, its charge and its answer |
| `VoiceMetering.MeteredIsNewCharge` | internal/controlplane/handlers_comm_webhooks.go:495-508 | a call whose dedup row is new has never been charged to that instance and month |
| `VoiceMetering.CallPrice` | internal/controlplane/handlers_comm_webhooks.go:446-453 | a call costs eight credits for each of the fewest minutes that hold it |
| `VoiceMetering.MeteredCharges` | internal/controlplane/handlers_comm_webhooks.go:455-502 | the transaction puts the call's price into the ledger and the usage, with its dedup row |
| `VoiceMetering.HookStepKeeps` | internal/controlplane/handlers_comm_webhooks.go:439-509 | every step of a webhook, redelivered or not, keeps the table in order and in balance |
| `VoiceAnswers.WebhookAnswers` | internal/controlplane/handlers_comm_webhooks.go:398-509 | in every run success means that nothing was due, the call is charged, or it is inbound and could not be billed; an error means an outbound call that could not be billed, or a transaction without a good reply |
| `VoiceAnswers.UnbilledIsAnswered` | internal/controlplane/handlers_comm_webhooks.go:398-437 | conversely, in every run a webhook that could not be billed is answered, and if something was due, with success exactly for an inbound call |
| `VoiceAnswers.SuccessIsChargedIff` | internal/controlplane/handlers_comm_webhooks.go:398-509 | for one delivery of a due call, success means a charge if and only if the call is not inbound, or can be billed, or was charged before |
| `VoiceAnswers.FirstDeliveryCharges` | internal/controlplane/handlers_comm_webhooks.go:439-509 | a call that can be billed is charged once by its first delivery, with the overage part exactly the growth of usage beyond the allowance, and later deliveries change nothing |
| `VoiceAnswers.UnchargedSuccessIff` | internal/controlplane/handlers_comm_webhooks.go:398-412 | in every run success stands without a charge exactly for a due inbound call that could not be billed and that no other webhook has charged |
| `VoiceAnswers.InboundSuccessWithoutCharge` | internal/controlplane/handlers_comm_webhooks.go:407-410 | a run in which a due inbound call is answered with success and nothing is charged |
| `WorkerSteps.WorkerStepKeeps` | internal/aiworker/server.go:151-309 | every unconditional put of every worker keeps finished jobs with results and results with jobs |
| `WorkerRuns.DeliveryOutcome` | internal/aiworker/server.go:151-309 | what an uninterrupted delivery does: nothing for a job that is not pending; with a stored result, the job is marked ok; otherwise the module's outcome is stored, reported as failed with one more attempt, or dropped |
| `WorkerRuns.StoredResultSparesTheModule` | internal/aiworker/server.go:196-223 | in every run a worker whose result read meets a stored result never runs the module nor reports a failure |
| `WorkerRuns.NewResultsLive` | internal/aiworker/server.go:274-309 | in every run a result stored by a worker lives for thirty days from its creation |
| `LateErrors.OkIsLostIff` | internal/aiworker/server.go:259-272 | a job marked ok loses its mark exactly when a worker reports a failed tool for it, and its result stays |
| `LateErrors.LateErrorReplacesOk` | internal/aiworker/server.go:259-272 | a run of two deliveries in which a late failure replaces the ok of a finished job |
| `AiSystem.RunKeeps` | internal/ai/service.go:110-150 | the invariant and the balance survive every interleaving of callers, webhooks and workers |
| `AiSystem.Conservation` | internal/ai/service.go:453-594 | in every run the growth of used credits equals the credits the ledger gained, and ledger overage never falls and grows by no more than usage beyond the allowance |
| `AiSystem.SingleCharge` | internal/controlplane/handlers_comm_webhooks.go:439-509 | in every run each job, and each call of an instance in a month, is charged at most once, and a charge stays as it was made |
| `AiSystem.SpendingLimit` | internal/ai/service.go:136-149 | runs in which only debits without overage touch a budget keep its usage within the allowance, however stale the snapshots |
| `AiSystem.GuardedRunsAddNoOverage` | internal/ai/service.go:487-512 | such runs leave the ledger's overage exactly as it was |
| `AiSystem.FinishedJobsHaveResults` | internal/aiworker/server.go:274-309 | in every run a job marked ok has a result, every result has its job row and carries its instance, module, policy, model set, scope and input hash, and no debit can commit for an id that has a result |
| `AiSystem.AnswersAreHonest` | internal/ai/service.go:596-690 | an ok answer has a stored result, a queued answer a stored job, and a reported debit is the caller's own charge, for the price of its base and multiplier |
| `Refusals.AnswersExplainThemselves` | internal/ai/service.go:357-445 | in every run an answer about the budget shows the stored allowance and a usage the stored one has reached, or nothing because the row could not be read; an amount refused as exceeding the budget still does not fit, however the run went on; missing budgets and full houses are real; overage is reported only to callers that allow it |
| `AiSystem.StepsAreARun` | internal/ai/service.go:110-150 | a caller that is not interrupted is a run of the system |
| `AiService.Service.GetOrQueue` | internal/ai/service.go:110-150 | an unexpired stored result is answered ok and cached with one ledger entry of nothing debited and no other change; a stored job is reported with the table unchanged; too many in flight, a missing budget and a budget without room are refused with the table unchanged; a free job is queued; any other is queued with exactly one debit, the split of its usage and the budget it leaves; and all this is the end of an uninterrupted caller of the protocol |
| `AiService.Service.RecordCacheHit` | internal/ai/service.go:152-180 | a cache hit adds its ledger entry, unless it is there, changes no other row and is the caller's recording step |
| `AiService.Service.QueueNoChargeJob` | internal/ai/service.go:310-355 | a new free job is created with its identity, inputs and time to live and nothing else changes; an existing one is reported; both are the caller's creation step |
| `AiService.Service.QueueWithDebit` | internal/ai/service.go:453-560 | either the job is created, its entry accounts for the credits, the usage of the one budget rises by them and no other row changes, and the answer shows the budget left; or nothing changes and the answer explains the refusal from what is stored |
| `AiService.Service.HandleDebitConditionFailed` | internal/ai/service.go:596-645 | a refused debit is answered by the live result, the existing job, or the stored budget, as a conflict exactly when the amount would fit |
| `CallerRuns.FreshResultIsServed` | internal/ai/service.go:110-118 | in every run a caller whose result read meets an unexpired result serves it: it has answered with the cache hit after its next store call, whatever that call's reply |
| `CallerRuns.ErrorsAreLostCalls` | internal/ai/service.go:119-150 | in every run a caller is answered with an error if and only if its budget read or its queueing write got no good reply |
| `CallerRuns.EveryCallerIsAnswered` | internal/ai/service.go:110-150 | every caller is answered after at most nine store calls of its own, whatever they return and whoever else runs |
| `GetOrQueue.ChangedAllowanceRefuses` | internal/ai/service.go:562-594 | an allowance other than the one the caller read refuses the debit, whatever room there is |
| `Batch.RowsAgreeIff` | internal/aiworker/server.go:400-428 | single and batch processing leave the same job row and result body exactly when the inputs can be parsed, what each leaves otherwise, and that rows in no need of a new summary are treated alike in every column |
| `Batch.UnreadableJobSplitsThem` | internal/aiworker/server.go:990-993 | a queued summary job with inputs that do not parse: finished with an empty body alone, left as it is in a batch |
| `Batch.UnnamedModelSetDiffers` | internal/aiworker/server.go:384-398 | a job without a model set whose result is stored under no model set alone and under the deterministic one in a batch |
| `Batch.ColumnsAgreeIff` | internal/aiworker/server.go:463-583 | when model set, usage and problems of a fresh summary agree between single and batch processing, and what the batch stores where they do not |
| `Batch.SingleTwice` | internal/aiworker/server.go:151-223 | redelivering a job changes nothing |
| `Batch.SummaryOutcome` | internal/aiworker/server.go:985-1060 | a summary job gets the provider's usable summary, and otherwise the deterministic one with the reason why |
| `Batch.OtherOutcome` | internal/aiworker/server.go:151-309 | what a delivery makes of any other job: nothing unless it is queued and unexpired, done if it has a result or its module ran, failed with one more attempt if the module failed |
| `Batch.Worker.ProcessJob` | internal/aiworker/server.go:151-309 | one delivery gives the job's row its outcome and touches no other row |
| `Batch.Worker.ProcessEach` | internal/aiworker/server.go:348-351 | a list of deliveries gives every named row its outcome once, whatever the order and repetition |
| `Batch.Worker.Collect` | internal/aiworker/server.go:311-350 | every pending summary job is collected with its row as read, and every other pending job is listed |
| `Batch.Worker.Group` | internal/aiworker/server.go:384-428 | jobs with results are marked, and the readable rest is grouped under its model set without loss |
| `Batch.Worker.ProcessGroup` | internal/aiworker/server.go:430-447 | every job of a group gets its result and no other row changes |
| `Batch.Worker.ProcessGroups` | internal/aiworker/server.go:360-377 | all groups are processed in any order, each job getting the result of its own row |
| `Batch.Worker.ProcessBatch` | internal/aiworker/server.go:311-377 | a batch gives every named row its batch outcome, for every group order, repetition and mixture of modules |
| `Batch.BatchMatchesSinglesIff` | internal/aiworker/server.go:311-447 | batch and single processing leave the same job rows and result bodies for every id if and only if no pending summary job is unreadable |
| `Evidence.DecimalInjective` | internal/aiworker/server.go:1580-1587 | different counter values generate different texts |
| `Evidence.FirstWebIds` | internal/aiworker/server.go:1580-1587 | the first generated ids, and the first with two digits |
| `Evidence.AheadShrinks` | internal/aiworker/server.go:1582-1588 | the termination measure: the taken ids ahead of the counter become fewer |
| `Evidence.Free` | internal/aiworker/server.go:1578-1588 | the inner loop ends with an id that is free: the wish, or the first free generated id past the counter |
| `Evidence.Seen` | internal/aiworker/server.go:1562-1569 | the trimmed non-blank ids in use are collected |
| `Evidence.UniquifyEvidenceIds` | internal/aiworker/server.go:1561-1597 | at most five items are kept in order with all other fields; ids are pairwise distinct and disjoint from existing ones; free ids stay and generated numbers increase |
| `Filtering.KeepFirst` | internal/aiworker/server.go:1939-1952 | the sanitising loop returns the first n values that pass |
| `Filtering.KeptConcat` | internal/aiworker/server.go:1939-1952 | what passes is decided element by element, in order |
| `Quotation.SqueezeTrim` | internal/aiworker/server.go:2031-2046 | white space at the ends makes no difference to the comparison |
| `Quotation.SqueezeWord` | internal/aiworker/server.go:2044-2046 | squeezing lowercases a text without white space |
| `Quotation.SqueezeSplit` | internal/aiworker/server.go:2044-2046 | white space between two texts that are not blank becomes one blank between their squeezed forms, and blank texts drop out |
| `Quotation.SqueezeIsDetermined` | internal/aiworker/server.go:2044-2046 | a function obeys these two laws if and only if it is squeezing |
| `Quotation.MatchesIff` | internal/aiworker/server.go:2031-2050 | the quote test accepts exactly the quotes of at least eight squeezed bytes that the squeezed evidence contains |
| `Quotation.QuotesIff` | internal/aiworker/server.go:2044-2050 | containing means that the squeezed text is the squeezed quote with some text before and after it |
| `Quotation.CutKeepsBeginning` | internal/aiworker/server.go:1954-2000 | a cut text is the trimmed text if it fits, and otherwise its first n bytes without white space at their end |
| `Claims.AcceptedIff` | internal/aiworker/server.go:2002-2029 | a citation is accepted exactly when it names a known source and its first 200 bytes quote that source's text |
| `Claims.CitationsAreBacked` | internal/aiworker/server.go:2002-2029 | the first three accepted citations remain, each quoting the source it names, and sanitising them again changes nothing |
| `Claims.SanitizeCitations` | internal/aiworker/server.go:2002-2029 | the loop returns the first three accepted citations |
| `Claims.VerdictKeptIff` | internal/aiworker/server.go:1988-1997 | a supported or refuted verdict survives exactly when at least one of its citations is accepted |
| `Claims.CleanClaimIsKept` | internal/aiworker/server.go:1954-2029 | a claim that needs no repair is unchanged |
| `Claims.ClaimOutcome` | internal/aiworker/server.go:1954-2000 | id, text and citations of a sanitised claim, and its verdict: the one asked for if a citation is accepted, and inconclusive otherwise |
| `Claims.ClassificationOutcome` | internal/aiworker/server.go:1954-1980 | any classification but checkable and opinion becomes unclear, up to case and white space |
| `Claims.ConfidenceOutcome` | internal/aiworker/server.go:1954-2000 | the confidence is brought between nought and one, and is nought for a withdrawn verdict |
| `Claims.ReasonOutcome` | internal/aiworker/server.go:1982-1997 | the reason is cut to 240 bytes, and a withdrawn verdict leaves a note about missing citations in it |
| `Claims.SecondPassKeeps` | internal/aiworker/server.go:1954-2000 | a second pass changes no id, text, classification, verdict, confidence or citation |
| `Claims.SecondPassReasonIff` | internal/aiworker/server.go:1982-1997 | the second pass changes nothing at all exactly when the note about missing citations still fits into 240 bytes |
| `Claims.LongReasonIsShortened` | internal/aiworker/server.go:1982-1997 | supported claims without citations whose reason of 221 to 240 bytes is cut by the second pass |
| `Claims.ReasonOf221IsShortened` | internal/aiworker/server.go:1982-1997 | such a claim: a reason of 221 equal letters differs after the second pass |
| `Claims.SanitizeClaims` | internal/aiworker/server.go:1939-1952 | the loop returns the first ten claims that keep an id and a text |
| `Claims.SanitizedClaimsAreBacked` | internal/aiworker/server.go:1939-2050 | every supported or refuted claim carries one to three citations, each a normalised substring of at least eight bytes of the evidence it names |
| `Claims.SanitizeTwice` | internal/aiworker/server.go:1939-2000 | sanitising sanitised claims drops none and changes nothing but possibly a reason |
| `ClockText.ParseSmallInt` | internal/commworker/server.go:896-909 | the digit loop reads exactly the non-empty trimmed strings of digits, with their decimal value |
| `ClockText.SmallIntDigits` | internal/commworker/server.go:896-909 | a text is read digit by digit, and refused with its first other character |
| `ClockText.SmallIntTrims` | internal/commworker/server.go:896-909 | white space around a number is ignored |
| `ClockText.ParseHHMMMinutes` | internal/commworker/server.go:879-894 | a clock text is read as minutes after midnight, or refused |
| `ClockText.ClockTextIff` | internal/commworker/server.go:879-894 | a text with a colon is a clock time exactly when both sides of its first colon are numbers below 24 and 60 |
| `ClockText.MinutesReadBack` | internal/commworker/server.go:879-894 | every time of day written as HH:MM is read back |
| `ClockText.DayInWindow` | internal/commworker/server.go:869-877 | a day is found exactly when some listed day equals it up to case and white space |
| `ClockText.ListedOn` | internal/commworker/server.go:850-877 | the weekday test decides membership in the recognised weekdays |
| `ClockText.DaysByName` | internal/commworker/server.go:850-877 | a weekday is listed exactly when its three-letter name is, up to case and white space |
| `ClockText.WeekIsRead` | internal/commworker/server.go:783-787 | Monday to Friday from 09:00 to 17:00, as it is read from its texts |
| `Schedule.Clock` | internal/commworker/server.go:804-805 | day and minute locate an instant within its minute and its day |
| `Schedule.Calendar` | internal/commworker/server.go:804-868 | the first of January 1970 was a Thursday, weekdays follow each other, and days and minutes have their length |
| `Schedule.SameDayWindow` | internal/commworker/server.go:803-820 | a same-day window is the stretch from its start, included, to its end, excluded, of each listed day |
| `Schedule.OvernightWindow` | internal/commworker/server.go:821-824 | any other window is all of each listed day but the stretch from its end to its start |
| `Schedule.InsideSome` | internal/commworker/server.go:803-827 | availability is that of the single windows |
| `Schedule.SearchChoice` | internal/commworker/server.go:829-848 | the search stops at the first day with an eligible window and at the first such window of that day |
| `Schedule.NextStartIsAhead` | internal/commworker/server.go:829-848 | the returned start is strictly after now and at most seven days ahead, and inside a window whenever the chosen window's end can be read |
| `Schedule.NothingFoundIff` | internal/commworker/server.go:829-848 | the search finds nothing exactly when no window has both a recognised weekday and a readable start |
| `Schedule.NextStartIsEarliestIff` | internal/commworker/server.go:803-848 | no instant before the returned start is available, if and only if, on the first day with an eligible window, no window listed after the first eligible one starts before it, and no overnight window is listed for a midnight before that start |
| `Schedule.OrderlyNextIsEarliest` | internal/commworker/server.go:829-848 | for same-day windows listed by ascending start, no instant from now up to the returned start is available |
| `Schedule.LaterListedWindowIsPassedOver` | internal/commworker/server.go:833-844 | windows out of order for which an available instant is passed over |
| `Schedule.OvernightHoursComeFirst` | internal/commworker/server.go:821-824 | an overnight window covers the evenings of its listed days and the small hours before them, and the small hours after an evening if and only if the next weekday is listed |
| `Schedule.StartIsInsideIff` | internal/commworker/server.go:829-848 | the returned start is available if and only if the chosen window's end can be read or another window covers it |
| `Schedule.StartCanBeUnavailable` | internal/commworker/server.go:829-848 | a window with an unreadable end whose start is returned and not available |
| `Schedule.NeverOpensIff` | internal/commworker/server.go:803-827 | a schedule is never available if and only if no usable window has a readable end |
| `Schedule.UnreadableEndsNeverOpen` | internal/commworker/server.go:810-814 | with such windows there is always a next start and never an available instant |
| `AvailabilityLoops.InAvailabilityWindow` | internal/commworker/server.go:803-827 | the loop answers whether some window covers the instant |
| `AvailabilityLoops.NextAvailabilityStart` | internal/commworker/server.go:829-848 | the nested loops compute the next start |
| `AvailabilityLoops.Decide` | internal/commworker/server.go:792-800 | deliver exactly inside a window; otherwise retry strictly later, at most a week ahead, and after 24 hours exactly for schedules without a usable window |
| `Availability.AvailabilityDecision` | internal/commworker/server.go:764-801 | absent, blank, always-open and empty schedules deliver now; all others are decided by their windows in local time |
| `Availability.BusinessSchedule` | internal/commworker/server.go:780-790 | a schedule of business hours is available exactly on Monday to Friday from nine until seventeen o'clock local time, whatever windows are listed beside it |
| `Availability.OwnWindows` | internal/commworker/server.go:764-790 | any other schedule is made of its own windows, and always open without them |
| `RateLimit.PutKeepsOrder` | internal/commworker/store.go:187-224 | the log stays ordered newest first with one row per key |
| `RateLimit.ScanIsExactIff` | internal/commworker/server.go:586-620 | the scan count never exceeds the true count, and equals it exactly when no receive that matters lies beyond the newest n rows |
| `RateLimit.ScanReachingBackIsExact` | internal/commworker/server.go:586-620 | a scan that reaches a row older than the window is exact |
| `RateLimit.AdmissionIsExact` | internal/commworker/server.go:308-320 | with covering scans a message is admitted if and only if its receive keeps both limits |
| `RateLimit.MessageCounts` | internal/commworker/server.go:276-336 | a message that is let through and received counts once from its stamp on, refused and dropped ones are recorded and never count, and no other row changes |
| `RateLimit.OneReceiveRefuses` | internal/commworker/server.go:308-320 | one receive uses up a limit of one for an hour and for a day, to the nanosecond |
| `RateLimit.WindowsHold` | internal/commworker/server.go:276-336 | over any run stamped at handling time with covering scans, every sliding hour and every sliding day holds at most the configured number of receives |
| `RateLimit.WindowsHoldAsSeen` | internal/commworker/server.go:308-320 | the same under a premise read off each scan: it came back short, or reached a row older than its window |
| `RateLimit.FloodHidesReceives` | internal/commworker/server.go:308-320 | 500 newest rows of other kinds let every message through |
| `RateLimit.BouncesHideReceive` | internal/commworker/server.go:308-320 | a log in which 500 bounces hide the receive that uses up limits of one |
| `RateLimit.LimitsCanRefuseIff` | internal/commworker/server.go:308-320 | some log is refused if and only if the hourly or the daily limit is on and within 250 and 500 rows |
| `RateLimit.LimitAtScanLength` | internal/commworker/server.go:308-320 | a daily limit equal to the scan length refuses exactly when all the newest rows are receives of the last day on the channel |
| `RateLimit.BackdatedEscape` | internal/commworker/server.go:623-655 | any number of messages stamped two days back pass at once, whatever the limits |
| `RateStamps.StampSafeIff` | internal/commworker/server.go:623-655 | for all limits, recording an admitted receive with a given stamp keeps both sliding windows in every log that keeps them and is seen in full, if and only if no limit is on, the stamp is no earlier than now, or the limits leave room for a full scan and every full hour out of reach |
| `RateStamps.OnlyPromptStampsAreSafe` | internal/commworker/server.go:308-320 | with a limit on and an hourly limit within the daily scan, exactly the stamps no earlier than now are safe |
| `ActivityTexts.CountInboundReceivesSince` | internal/commworker/server.go:586-620 | the counting loop counts exactly the inbound receives on the channel since the given time, and fails on a blank channel or a failed query |
| `ActivityTexts.HandleRateLimited` | internal/commworker/server.go:308-320 | refuses exactly what the limiter does not admit under the channel's configured or default limits |
| `ActivityTexts.ChannelLimits` | internal/commworker/server.go:709-741 | the default limits are 50 an hour and 500 a day for email, 20 and 200 for sms and none for other channels, and a positive configured number replaces each |
| `ActivityTexts.OnlyInboundReceives` | internal/commworker/server.go:600-617 | an activity is a receive on a channel exactly when direction, action and channel say so, up to case and white space |
| `ActivityTexts.RecordedIsReadBack` | internal/commworker/server.go:623-655 | a recorded activity is read back as a receive on its channel exactly when its action is receive |
| `ContentStore.SafeSegment` | internal/commmailbox/content_store.go:292-313 | the loop builds the segment, never empty and only of safe characters |
| `ContentStore.SegmentTwice` | internal/commmailbox/content_store.go:292-313 | segments are fixed points |
| `ContentStore.SafeIsItsSegment` | internal/commmailbox/content_store.go:292-313 | a value of safe characters is its own segment |
| `ContentStore.SafeCharacters` | internal/commmailbox/content_store.go:298-306 | safe are the lowercase letters, the digits, hyphen, underscore and full stop |
| `ContentStore.SegmentWithoutSafe` | internal/commmailbox/content_store.go:292-313 | a value without safe characters has the segment unknown if it is blank, and 24 digits of its digest otherwise |
| `ContentStore.ContentKeyCollides` | internal/commmailbox/content_store.go:274-280 | two deliveries share an object key exactly when their three segments agree |
| `ContentStore.SafeKeysDiffer` | internal/commmailbox/content_store.go:274-313 | deliveries whose ids are of safe characters share a key exactly when all three ids agree |
| `ContentStore.SafeKey` | internal/commmailbox/content_store.go:274-280 | the key of a delivery whose ids are of safe characters |
| `ContentStore.ExistingPointerDescribes` | internal/commmailbox/content_store.go:160-192 | an adopted pointer carries the expected digest and describes the object that is really there |
| `ContentStore.AdoptedIff` | internal/commmailbox/content_store.go:160-192 | an existing object is adopted exactly when its digest and, where known, its length agree with the body, and then with the object's type or, if it has none, the expected one |
| `ContentStore.GetContentIff` | internal/commmailbox/content_store.go:205-255 | a read returns the stored body with its digest, length and type, exactly when there is one within the limit, a mebibyte by default, that has the pointer's digest |
| `ContentStore.Bucket.PutContent` | internal/commmailbox/content_store.go:95-158 | succeeds exactly for non-blank ids and body whose calls succeed, under a free key or one whose object agrees, with the key, digest, length and type of what is stored; never changes a stored object and adds at most this body |
| `Mailbox.StepOk` | internal/commworker/mailbox_capture.go:28-137 | every store call of every capture keeps rows and objects in agreement, objects write-once and content columns fixed |
| `Mailbox.ContentMatchesForever` | internal/commworker/mailbox_capture.go:53-117 | in every run a row marked as having content points to an object whose digest and length match the row, and this stays so in every continuation |
| `Mailbox.CapturedBodyIsReadBack` | internal/controlplane/comm_mailbox_capture.go:39-89 | once a capture creates its row, every later read returns exactly its body or reports the size limit, even when another delivery wrote the object first |
| `MailboxAnswers.CaptureAnswers` | internal/commworker/mailbox_capture.go:53-117 | in every run a capture answered with success has its row stored, and if it stores content and the row has content, readers get exactly its body |
| `MailboxAnswers.ContentReachableForeverIff` | internal/commworker/store.go:226-247 | in every run and continuation, the content of a capture answered with success is reachable through its row if and only if the row was not there without content at that moment |
| `MailboxAnswers.SuccessWithoutReachableContent` | internal/commworker/store.go:236-247 | a run in which a capture with content succeeds on the row of an earlier bounce, which has none |
| `MailboxProgress.CapturesComplete` | internal/commworker/mailbox_capture.go:53-117 | from every reachable state and whoever else runs, a complete capture whose calls are all answered is done, with its row, after three calls of its own if its key is free or holds an object of its digest and length, as after a crash, and with any other object there it is refused after two |
| `MailboxProgress.RefusedCreatesNothing` | internal/commmailbox/content_store.go:103-112 | an incomplete capture, or one whose key holds another body, is refused and changes nothing |
| `MailboxProgress.UnansweredCallEnds` | internal/commworker/mailbox_capture.go:53-117 | a store call without an answer ends the capture with an error, having done nothing if it failed and all of its work if only its reply was lost |
| `MailboxProgress.FirstPut` | internal/commmailbox/content_store.go:128-158 | the put under a free key stores the body with its digest and type, and the row will say the same |
| `MailboxProgress.CreatedRow` | internal/commworker/mailbox_capture.go:75-117 | a new row has the capture's status, is read exactly if it is outbound, and has content exactly if it stores it |
| `MailboxProgress.StoringCaptures` | internal/controlplane/comm_mailbox_capture.go:39-89 | outbound captures store content, inbound ones if they are told to |
| `MailboxProgress.ChangeTakesEffect` | internal/commworker/store.go:264-272 | a change of state gives a row its status and read flag and leaves everything else |
| `GenesisTrail.TrailNext` | internal/aiworker/hosted_genesis_microvm.go:103-233 | every call a dispatcher makes follows from what its earlier calls returned: runs are recorded before they are invoked, sessions are failed only for a cause, fatal failures are terminalized |
| `GenesisSystem.DispatchStepOk` | internal/aiworker/hosted_genesis_microvm.go:103-203 | every step of a dispatch performs at most one well-formed write of session and conversation, and its record agrees with the history of the rows |
| `GenesisOutcome.DispatchOutcome` | internal/aiworker/hosted_genesis_microvm.go:103-233 | every uninterrupted delivery is answered after at most eight calls, with its whole effect case by case: it leaves the rows alone, records the run that the controller revalidated or started, or fails session and conversation together |
| `GenesisOutcome.InvalidReceiveCount` | internal/aiworker/hosted_genesis.go:77-84 | a message with an invalid receive count is answered with an error and no write |
| `GenesisOutcome.LostReadEnds` | internal/aiworker/hosted_genesis.go:94-129 | a read without a good reply ends the delivery with an error and no write |
| `GenesisSystem.RunnerStepOk` | cmd/hosted-genesis-microvm-workload/runner.go:294-511 | every step of a runner performs at most one well-formed write and its copy is the row or older |
| `GenesisTurns.CheckpointsLand` | cmd/hosted-genesis-microvm-workload/runner.go:310-400 | in every run a runner that is not overtaken and constructs a section stores every accepted tool result by exactly one checkpoint, one version and one revision on with its hash and phase, and every piece of provider evidence by one, and carries on from the stored row |
| `GenesisTurns.LoadsTheRow` | cmd/hosted-genesis-microvm-workload/runner.go:58-94 | loading a turn gives the runner the stored row |
| `GenesisTurns.Decisions` | cmd/hosted-genesis-microvm-workload/actor.go:44-69 | for every session, exactly when the runner waits and when it fails recoverably |
| `GenesisTurns.BoundWrites` | internal/store/hosted_genesis_sessions.go:79-185 | a checkpoint, assistant turn or finalization is refused unless the stored session is in progress at the version, turn, revision and hash it was made from |
| `GenesisTurns.TurnsEndAsDecided` | cmd/hosted-genesis-microvm-workload/actor.go:44-69 | in every run a runner that is not overtaken ends its turn with an assistant turn for sections and reviews, with the finalization of an affirmed candidate, and with no write for a finalized one |
| `GenesisTurns.RunnersWriteOnlyForTheirTurn` | cmd/hosted-genesis-microvm-workload/runner.go:152-193 | in every run every write of a runner lands on a candidate in progress on the runner's own turn, and is a finalization exactly for an affirmed one |
| `GenesisSystem.FailureStepOk` | cmd/hosted-genesis-microvm-workload/runner.go:599-633 | the failure writer performs at most one write, of the status alone |
| `GenesisOutcome.FailureWriterOutcome` | cmd/hosted-genesis-microvm-workload/runner.go:599-633 | an uninterrupted failure writer fails the session of its turn with its conversation, and refuses other turns and sessions that have ended |
| `GenesisSystem.RunOk` | internal/store/hosted_genesis_sessions.go:61-305 | in every interleaving the log of accepted writes is the history of the row |
| `GenesisSystem.VersionCountsWrites` | internal/store/hosted_genesis_sessions.go:438-475 | the stored version rises by exactly one per accepted write |
| `GenesisSystem.RevisionNeverFalls` | cmd/hosted-genesis-microvm-workload/runner.go:294-328 | the candidate revision never falls |
| `GenesisSystem.WritesLandWhereTheyMay` | internal/aiworker/hosted_genesis_microvm.go:235-256 | lifecycle, checkpoint, assistant-turn and finalization writes land on sessions in progress only, only affirmed candidates are finalized, and no write changes more than its own fields |
| `GenesisSystem.ConversationFollows` | internal/store/hosted_genesis_sessions.go:106-305 | in every run each assistant turn, finalization and failure writer's write leaves the conversation in the session's status, on its turn, and lifecycle writes and checkpoints leave it alone |
| `GenesisOutside.DispatchWritesOutsideIff` | internal/aiworker/hosted_genesis.go:94-129 | a dispatcher's write lands on a session outside progress if and only if it is the failure write of a delivery that loaded the session so and then failed validation or found no conversation |
| `GenesisOutside.ValidFailuresStayOnTheirTurn` | internal/aiworker/hosted_genesis_microvm.go:115-150 | a dispatcher's failure write without failed validation lands on the session in progress, on the dispatcher's own turn |
| `GenesisOutside.FailuresTakeConversationAlong` | internal/aiworker/hosted_genesis.go:299-347 | in every run a dispatcher's failure write fails the conversation that the dispatcher found, on its turn, and leaves the conversation alone exactly when it found none |
| `GenesisOutside.LateInvalidMessageFailsReadyTurn` | internal/aiworker/hosted_genesis.go:164-201 | a run in which a late invalid message fails a session whose assistant turn is ready |
| `GenesisSystem.SuccessIsJustified` | internal/aiworker/hosted_genesis_microvm.go:103-203 | success means that the job is not there or its stored session had left the turn, or that a run's ref was recorded on the turn and the turn then invoked, or that this delivery durably failed the session for a cause |
| `GenesisSystem.ErrorIsJustified` | internal/aiworker/hosted_genesis_microvm.go:103-203 | an error means an invalid receive count, a failed read, a lifecycle write that may succeed on a later delivery, or a failing write that itself did not reach the store or met another row |
| `GenesisSystem.LifecycleFailureTerminalizes` | internal/aiworker/hosted_genesis_microvm.go:178-203 | a lifecycle failure that is permanent, or on receive three or later, is followed by a terminalizing write, and answered with an error only when that write is refused |
| `GenesisSystem.RelaunchOnlyOnRequest` | internal/aiworker/hosted_genesis_microvm.go:205-223 | with a ref on record a new run is started only right after the controller asked for a relaunch |
| `GenesisSystem.FailureIsDurable` | internal/aiworker/hosted_genesis.go:295-347 | after a failure write the session stays failed until the control plane writes |
| `GenesisStale.ForeignWriteOvertakes` | cmd/hosted-genesis-microvm-workload/runner.go:390-400 | any write by someone else makes the copy of a runner, dispatcher or failure writer stale |
| `GenesisStale.StaleWriterStaysSilent` | cmd/hosted-genesis-microvm-workload/runner.go:479-511 | from then on every write from that copy is refused, in every continuation: checkpoints, assistant turns, finalizations, lifecycle writes and failure writes |
| `Base64Url.DecodeInvertsEncode` | internal/attestations/jws_rs256.go:39-53 | decoding inverts encoding for all byte strings, and encodings consist of alphabet characters alone |
| `Base64Url.EncodeInvertsDecodeIff` | internal/attestations/jws_rs256.go:68-80 | a decodable text is the encoding of its bytes exactly when it has no line break and no stray trailing bits |
| `Base64Url.DecodesIff` | internal/attestations/jws_rs256.go:68-80 | a text decodes exactly when it consists of alphabet characters and line breaks and is not one character over whole quanta |
| `Base64Url.BreaksAreSkipped` | internal/attestations/jws_rs256.go:68-80 | line breaks make no difference wherever they stand |
| `Base64Url.Alphabet` | internal/attestations/jws_rs256.go:39-53 | the alphabet of RFC 4648, table 2 |
| `Jws.SplitThree` | internal/attestations/jws_rs256.go:63-66 | the dots separate the three parts again |
| `Jws.ParseRefuses` | internal/attestations/jws_rs256.go:57-81 | what parsing refuses, in the order of its tests, and that it accepts everything else |
| `Jws.BuildRefuses` | internal/attestations/jws_rs256.go:20-53 | what building refuses, in the order of its tests |
| `Jws.ParseInvertsBuild` | internal/attestations/jws_rs256.go:20-81 | building succeeds exactly when payload, header and a non-empty signature are there, and parsing returns exactly those bytes |
| `Jws.SigningInputIsUnique` | internal/attestations/jws_rs256.go:39-44 | the signed text determines header and payload |
| `Jws.ParsedIsRebuiltIff` | internal/attestations/jws_rs256.go:57-81 | a text that parses is the one its parts build exactly when it is trimmed and each part is free of line breaks and stray bits |
| `Jws.StrayBitsAreIgnored` | internal/attestations/jws_rs256.go:68-80 | a different text with the same parts exists for every header, payload and such signature byte |
| `PartitionWalk.CollectPartitionAll` | internal/controlplane/bounded_query.go:25-47 | the walk follows the cursors, reads at most maxPages pages, and returns all items read if the last page ended it and an error otherwise |
| `PartitionWalk.OutcomeIsUnique` | internal/controlplane/bounded_query.go:25-47 | query and page limit determine the pages read and the outcome |
| `PartitionWalk.WalkServed` | internal/controlplane/bounded_query.go:25-47 | over a paged partition it succeeds exactly when the pages up to the first blank cursor fit, with exactly their items |
| `PartitionWalk.NeverTruncates` | internal/controlplane/bounded_query.go:20-24 | with a cursor on every page but the last it returns every item in order or an error, and succeeds exactly when the partition fits |
| `PartitionWalk.CompleteIff` | internal/controlplane/bounded_query.go:42-44 | success means the whole partition if and only if no page with items lies behind a blank cursor |
| `PartitionWalk.BlankCursorTruncates` | internal/controlplane/bounded_query.go:42-44 | a query for which the walk succeeds with a strict prefix |

## Left out

- Text is modelled as strings of single-byte characters: white space, lowercasing and lengths follow ASCII, not UTF-8.
- Rows are never deleted: TTL expiry of jobs, results, ledger entries and objects is not modelled, and it would break single charging.
- Digests and composed ids are injective constructors or, for mailbox bodies, an arbitrary function into hexadecimal with a no-clash premise where bodies must be told apart; hashing itself and separators inside ids are not modelled.
- Budgets and usage are mathematical integers outside `PricedCredits`; the included allowance of a month does not change during a run.
- Request preparation beyond pricing and the required model set, and validation, in `internal/ai/service.go`, the concurrency index (its count is an arbitrary number) and response fields that only repeat the request are left out.
- Tool and model calls are arbitrary outcomes in the protocols and arbitrary functions of model set, id and input in the batch comparison; prompt texts and providers are left out.
- In the batch comparison all puts succeed and the clock stands still; failing puts and concurrent workers are covered by the interleaving model instead. Provider calls take one item, as the code always passes one.
- Zones are fixed offsets without daylight-saving transitions; an unknown zone is UTC.
- ClockText.ParseSmallInt: reads digits into an unbounded integer and does not model 64-bit wrap-around of absurdly long digit strings.
- RateLimit.WindowsHold: assumes prompt stamps and covering scans (which stamps are safe is settled by `RateStamps.StampSafeIff`, which scans are exact by `RateLimit.ScanIsExactIff`), and counts recorded receives; a put that fails after delivery is not counted.
- AvailabilityLoops.InAvailabilityWindow: reads each window through a function; that the worker's own text parsing computes this function is stated by the `ClockText` methods.
- Activity ids are represented by their rank in key order.
- Which checks make a voice call billable (number of an inbound call; channel, provider, agent and instance of an outbound one) is one arbitrary verdict per call.
- The content type of a message is the one after the default by channel.
- GenesisOutcome.DispatchOutcome: is about a conversation in the session's status, as every write of the protocol leaves it; what other rows lead to is stated over runs.
- Mailbox events, message listings, audit rows and notification delivery are left out; they touch neither content nor row content columns.
- GenesisSystem.SuccessIsJustified: identity, boundary and idempotency checks of a dispatch are one arbitrary verdict each, because their tables are outside the session protocol.
- The failure transaction also requires that the turn's idempotency reservation is unchanged; that row is not modelled, and a transaction it refuses is one of the failures that any store call may meet.
- Control-plane writes to a session are arbitrary compare-and-swap writes that do not lower the candidate revision; publication, recovery and owner actions are not modelled one by one, nor is the content of candidates.
- Confidence is a real number; not-a-number is not modelled.
- JSON encoding of the JWS header, digests and RSA are parameters of the builder.
- Web handlers, provisioning, registries, contracts, infrastructure and user interfaces are left out.
