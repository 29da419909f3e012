# Verified model of the payment gateway

A Dafny model of a payment gateway on SQLite, with proofs about every run of its protocols.
Each SQL transaction is one atomic step; workers, gateways, drivers and clients are step
machines that can stop, fail or be overtaken between any two steps.

- **payOS orders and settlement.** `PaymentTables`, `OrderLeases` and `Settlement` say what each
  transaction does to orders, receipts, credits, events, journal, deliveries and inbox;
  `PaymentStore` has the same transactions statement by statement. `SettlementAnswers` and
  `OrderRequests` say when each answer is given and what it leaves. `PaymentRuns` proves the
  ledger over all runs, `OrderHistory` the lease protocol, `Confluence` that callbacks and
  verified Gets commute, `Interleaving` the same among any other transactions, `LinkSettlement`
  the service's loop over pending callbacks. `RecoveryLogic`, `RecoveryRuns`, `RecoverySafety` and
  `RecoveryTheorems` add the workers that create, fetch, cancel and complete orders around
  crashes and lease takeovers, `RecoveryProgress` what they achieve when nothing stops them.
- **Admission, gate and drain.** `Admission`, `AdmissionStore`, `AdmissionAnswers`, `DrainBarrier`; `GatedLedger` runs
  the ledger and the admission control together.
- **SePay ingest.** `SePayTables`, `SePayIngest`, `SePayStore`, `SePayRuns`, `SePayTheorems`,
  `SePayAnswers`.
- **Journal to browser.** `Journal`, `JournalCursor`, `RealtimeCoordinator`, `EventHub`,
  `EventStream`. The environment commits, deletes and fails queries at every query of a reader.
- **Outbox.** `Outbox`, `OutboxRuns`, `OutboxOutcomes`, `OutboxStore`.
- **Codecs.** `Decimal`, `Amounts`, `EventFrames`.
- **Deployment tools.** `Routes`, `RouteTool`, `Cutover`. Every command may fail, take effect
  and still fail, or be the process's last act.

Specification functions and the methods that update fields in place are separate: a method's
`ensures` ties its new state to the function, and the theorems are about the function's runs.
What an answer means is stated beside them, without the function's own chain of checks: each
verdict of a transaction has one condition on the stored rows and the request, in both
directions. Where the environment acts inside a method (journal readers, route tool, cutover driver) the
theorem is the invariant that the method keeps at every step and for every schedule.

`dafny verify dfyconfig.toml` checks the project.

## Findings

- A client told watermark 0 keeps no id, so it can miss rows committed between its first two
  connections (`EventStream.EmptyJournalLosesCredit`); otherwise its stream is exact.
- A verified Get is not sent while callbacks are pending and all of them disagree with it.
  `LinkSettlement.DisagreeingCallbackHoldsBackGet` is a reachable state in which an open payment is
  held back so; `LinkSettlement.LinkBooksIff` says exactly when the loop books.
- Single crediting of SePay transfers needs each activating save to stamp a cutoff later than the
  transfers credited before it. The source stamps before its transaction; with a stamp older than
  a credited transfer the transfer is credited twice (`SePayTheorems.LateStampCreditsTwice`,
  `SePayTheorems.StampDecidesSecondCredit`).
- A route snapshot that holds exceptions but not the live catch-all is unsafe to restore
  (`Routes.SnapshotRestoreIsSafe` is the exact condition). Two snapshots of one host get there:
  `RouteTool.SecondSnapshotStrandsCatchAll` is a first run that dies, a second one that completes,
  and a restore of the first that leaves the catch-all without an exception.
- A route delete that took effect but was not recorded makes every later restore stop at its
  drift check, whatever its faults (`RouteTool.Tool.RestoreAgain`). The table stays safe.
  `RouteTool.LostDeleteSticks` is such a run; left alone, `RouteTool.Tool.Restore` completes iff
  nothing drifted and, with an intent pending, the table passes the inspection.
- A restore before payments counts only orders and receipts. Any other row the new release recorded
  is dropped with the replaced database: `Cutover.RollbackDropsCandidateRows` is a run of cutover,
  such rows and rollback. `Cutover.Driver.RestoreDatabase` drops none iff it found no more rows than
  the backup has, and `Cutover.Driver.Operate` carries that over every schedule. Rows of the legacy
  release are never lost.
- At a clean end of stream `parseStream` dispatches the pending frame, and reads a last line without
  its newline, where section 9.2.6 of the WHATWG HTML standard discards an unfinished event. A
  server that closes inside a frame so delivers a stub (`EventFrames.CleanEndAfterIdLine`) or a
  truncated event (`EventFrames.CleanEndInsideData`), and the last id moves onto it: the real event
  is not sent again on the next connection. `EventFrames.CutDeliversWholeEventsIff` gives the exact
  condition for every stream, handler and cut: the connection ended by an error, or the cut falls
  between frames, in a heartbeat, behind what the handler takes, before the frame's first value,
  behind its data, or behind the header of an event that says nothing more.

## Assumptions

- Instants are integers in nanoseconds. Delivery, provider-lease and gate columns are compared as
  RFC 3339 text in the source; the model compares the instants.
- Hashes are the tuples they hash; random ids and tokens are fresh numbers; a row's id is its
  position where ids are random. Payment order codes come from an explicit list of draws.
- Lease token and lease end, and operation token and its end, change together and are one column.
- The payment namespace is a function of the channel. "" stands for a SQL NULL text.
- In `SePayRuns` both transports report the same instant for a transfer; `TimelyRun`, or the
  stronger `Prompt`, is the condition on saves.
- A hint names a row that was committed to the journal.
- The route tool is the only writer of its host's routes and a remote call takes effect before it
  returns or not at all; one cutover driver runs at a time and nothing else starts writers.
- The JSON envelope of a realtime event decodes to the event it encodes, with its payload
  normalised, and is one nonempty line; characters stand for bytes. A proper prefix of an envelope
  is not JSON: it does not decode, and it is no event's payload unless empty.

## Model

| member | source | states |
|---|---|---|
| PaymentRuns.PaidIffOneReceipt | internal/storage/settlement.go:89-247 | In every reachable state an order is PAID iff it has a transaction iff exactly one receipt names it; that receipt has the order's amount and link, and its credit, event, journal row and deliveries are the payment's own, one delivery per endpoint active at commit |
| PaymentRuns.OneRowPerPayment | internal/storage/events.go:147-218 | No order, credit key, event or journal entry belongs to two payments |
| PaymentRuns.CreditsEqualReceiptsEqualPaidOrders | internal/storage/settlement.go:196-243 | Over every run the PAID amounts, the receipts and the credits have the same sum |
| PaymentRuns.ProcessedCallbackHasReceipt | internal/storage/settlement.go:249-293 | Every processed inbox row is the callback of a committed receipt |
| PaymentRuns.AcceptedKeyIsFree | internal/storage/settlement.go:105-200 | A settlement that passes its checks never meets an existing transaction with its key, nor an event with its key or transaction |
| PaymentRuns.NeverBroken | internal/storage/settlement.go:184-187 | In a reachable state a receipt and its order never disagree, so the settlement never stops on a receipt without its PAID order |
| PaymentRuns.AcceptIff | internal/storage/settlement.go:89-193 | The chain of checks accepts a payment for an order iff amount, channel, link, account and evidence fit, the order is unpaid, the reference has no receipt, and a named callback is stored as given |
| PaymentRuns.RunKeepsInv | internal/storage/payment_orders.go:143-414 | Reserve, claim, renew, complete, settle, keep and promote, in any order and at any times, keep the whole ledger consistent |
| SettlementFrames.UnacceptedMovesNoMoney | internal/storage/settlement.go:105-193 | A refused, reviewed or duplicate settlement changes no financial row and at most reschedules orders, never before a lease ends |
| SettlementFrames.AcceptedPaysOneOrder | internal/storage/settlement.go:196-247 | An accepted settlement pays exactly its order and leaves every lease, including its own, as it is |
| SettlementAnswers.CallbackIsAnswered | internal/storage/settlement.go:105-193 | A payment's signed callback, in any reachable state: a duplicate that changes nothing iff the payment is booked, booked by it iff the order is open, bound and live, else kept under the one reason that applies, each with its condition |
| SettlementAnswers.RepeatIsIdle | internal/storage/settlement.go:184-189 | Any further agreeing report of a booked payment, callback or Get, is a duplicate and changes nothing |
| SettlementAnswers.VerdictIff | internal/storage/settlement.go:132-193 | For a known order each review reason, the duplicate and the acceptance have exactly one condition on order, receipts and inbox |
| SettlementAnswers.ContradictionIff | internal/storage/settlement.go:132-183 | A mismatch is answered iff channel, link, amount, account, Get or stored row contradict the payment |
| SettlementAnswers.UnreadableIff | internal/storage/settlement.go:121-137 | An unreadable date, and an order code nobody has, are answered exactly as such |
| SettlementAnswers.CallbackReviewIsFiled | internal/storage/payos_receipts.go:52-83 | A reviewed callback is stored once under its reason, and later only demoted from a reason that evidence could cure |
| SettlementAnswers.OtherReviewIsFiled | internal/storage/settlement.go:101-120 | A review without a callback relabels the named unprocessed row, or is refused |
| SettlementAnswers.NewCallbackWakesOrder | internal/storage/payos_receipts.go:159-184 | A new callback that a Get could settle makes its order due at once or at the end of its lease |
| SettlementAnswers.AcceptedPaymentIsWritten | internal/storage/settlement.go:194-247 | Every row an accepted payment writes, with one delivery for each endpoint active at commit, and no other change |
| SettlementAnswers.PromotionWakesOrder | internal/storage/payos_receipts.go:159-224 | A promotion makes the code's unpaid order due at once or at the end of its lease |
| PaymentStore.Store.SettlePayment | internal/storage/settlement.go:89-247 | The statement-by-statement transaction ends in the specified state and answer; what that state and answer are is `SettlementAnswers.CallbackIsAnswered`, `VerdictIff` and `AcceptedPaymentIsWritten` |
| PaymentStore.Store.DecidePayment | internal/storage/settlement.go:121-193 | The checks, query by query and in the source's order, reach the specified verdict, whose meaning is `SettlementAnswers.VerdictIff` |
| PaymentStore.Store.MarkSettlementInboxProcessed | internal/storage/settlement.go:249-265 | Marks exactly the given row, once and for all, and reports a missing one |
| PaymentStore.Store.EmitTransactionEventTx | internal/storage/events.go:147-218 | One event, one delivery per active endpoint through the loop, one journal row; nothing for a transaction already announced, an error for a key already used |
| PaymentStore.Store.InsertPaymentInboxTx | internal/storage/payos_receipts.go:52-83 | The first observation of a callback is kept, repeats change no row, and its order is woken |
| PaymentStore.Store.WakePendingPaymentCallbacks | internal/storage/payos_receipts.go:186-224 | Promotes the pending UNKNOWN_ORDER rows of the twenty least codes whose order in the channel now exists, and wakes those orders |
| PaymentStore.Store.PendingOrderCodes | internal/storage/payos_receipts.go:192-208 | The scan finds those codes, each once, in order |
| PaymentStore.PromotedRows | internal/storage/payos_receipts.go:209-223 | Exactly the pending UNKNOWN_ORDER rows of the codes await their order now; every other row is as it was |
| PaymentStore.Store.ReservePaymentOrder | internal/storage/payment_orders.go:143-222 | The retry loop reserves under the first free code drawn, or replays or refuses the key |
| PaymentStore.Store.ClaimPaymentOrder | internal/storage/payment_orders.go:224-292 | Claims only an unpaid order without an unexpired lease, under a new token |
| PaymentStore.Store.RenewPaymentOrderOperation | internal/storage/payment_orders.go:294-346 | Extends the lease of the current token only |
| PaymentStore.Store.CompletePaymentOrderOperation | internal/storage/payment_orders.go:348-414 | The gate is checked after the UPDATE, and a refusal puts the row back; what is bound from what is `OrderRequests.CompleteIff` and `RecoveryProgress.CreateBinds` |
| OrderRequests.AnswerIsForever | internal/storage/payment_orders.go:143-222 | A request once answered with an order gets that order at any later time, and a conflict if hash, amount or origin changed |
| OrderRequests.KnownKeyIsReplayedIff | internal/storage/payment_orders.go:156-181 | A known key is replayed iff hash, amount and origin are the issued ones, else conflicts; nothing changes |
| OrderRequests.NewKeyIsIssuedIff | internal/storage/payment_orders.go:182-222 | A new key is issued iff admitted and a drawn code is free, as the request's own unbound order under the first free code |
| OrderRequests.ClaimIff | internal/storage/payment_orders.go:224-292 | Granted iff the order is unpaid, without an unexpired lease and the gate open; only lease, token and schedule move |
| OrderRequests.RenewIff | internal/storage/payment_orders.go:294-346 | Granted iff the token owns the unpaid order and the gate is open; only lease, schedule and QR mark move |
| OrderRequests.CompleteIff | internal/storage/payment_orders.go:348-414 | Completes iff valid, owned and admitted; link, QR and account are each bound from their own field if empty, and a PAID order keeps its status |
| OrderHistory.RunEvolves | internal/storage/payment_orders.go:348-414 | Over every run PAID is absorbing, link, QR and account are bound once, the QR recovery mark never clears |
| OrderHistory.SupersededTokenIsInert | internal/storage/payment_orders.go:294-414 | After a token lost its order, Renew and Complete with it change nothing at any later time |
| OrderHistory.ClaimSupersedes | internal/storage/payment_orders.go:224-292 | A takeover happens only after expiry and retires the earlier token |
| OrderHistory.LeaseRefinesLock | internal/storage/payment_orders.go:224-414 | Every transaction refines a step of a lock with one owner: acquire when free or expired, extend or release by the owner, else nothing |
| Confluence.ArrivalOrderIsImmaterial | internal/storage/settlement.go:143-193 | For agreeing callbacks and Gets in any order and number: the same order, receipt and credit rows if one was decisive, unchanged financial rows if none was |
| Confluence.DecisiveIsAccept | internal/storage/settlement.go:105-193 | What makes an arrival book the payment, for bound, unbound and terminal orders, in terms of the order and the inbox only |
| Confluence.GetSettles | internal/payments/reconcile.go:559-631 | One admitted plain Get anywhere in the run suffices |
| Confluence.CallbacksAloneSettle | internal/payments/webhook_service.go:95-113 | Callbacks alone book the payment iff the order is bound and not terminal and one is admitted |
| Interleaving.InterleavedArrivalsAgree | internal/storage/settlement.go:105-247 | Among any other transactions in any order, a payment's arrivals leave at most one receipt for its reference, on its own PAID order, and one if an arrival was decisive |
| LinkSettlement.SettleLink | internal/payments/reconcile.go:559-631 | The loop over pending callbacks, with its skips and early ends, reaches the specified state and answer |
| LinkSettlement.LinkBooksIff | internal/payments/reconcile.go:559-631 | A verified Get of an open payment books it iff no callback is pending or one agrees; then every agreeing callback is processed, else nothing changes |
| LinkSettlement.LinkAgainIsIdle | internal/payments/reconcile.go:559-631 | Settling a booked link again changes no order, receipt or credit |
| LinkSettlement.DisagreeingCallbackHoldsBackGet | internal/payments/reconcile.go:582-625 | A reachable state in which the one pending callback disagrees and an open payment is held back |
| Confluence.ServiceGetSettles | internal/payments/reconcile.go:582-625 | Some Get that the service may send books the payment iff it is open and no callback is pending or one pending callback agrees |
| Confluence.KeptCallbackIsConsumed | internal/payments/reconcile.go:582-631 | A callback kept for an unbound or terminal order is settled and marked by a later Get that names it |
| RecoveryLogic.Backoff | internal/payments/reconcile.go:490-502 | The doubling loop equals the closed form: 30 s times a power of two, capped at 15 min |
| RecoveryLogic.FailureDelayRange | internal/payments/reconcile.go:490-516 | Every retry waits between 30 s and 18 min, or exactly the provider's longer Retry-After |
| RecoverySafety.SysRunKeepsInv | internal/payments/reconcile.go:320-516 | Any number of workers, stopping between any two transactions, keep the recovery invariant |
| RecoveryProgress.LostCallbackIsRecovered | internal/payments/reconcile.go:320-363 | In any reachable state a worker that claims a due order, is told PAID and is not stopped ends with the order PAID and its receipt and credit written once |
| RecoveryProgress.PaidLinkIsSettled | internal/payments/reconcile.go:352-363 | A matching PAID reply, the settlement built from it and the completion book the payment whenever it is open and not all pending callbacks disagree |
| RecoveryProgress.OrderedPaymentIsPayable | internal/payments/order_create.go:44-183 | A granted request with a usable provider answer ends PENDING with the answer's link, QR and account, and the payer's callback books it |
| RecoveryProgress.CreateBinds | internal/payments/order_create.go:120-219 | A usable Create answer and the completion bind link, QR and account of the order as far as it had none |
| RecoveryProgress.CreatedOrderTakesCallback | internal/payments/order_create.go:120-183 | From then on an agreeing callback is decisive |
| RecoveryProgress.FirstCreateFails | internal/payments/order_create.go:120-183 | Any other answer leaves the order unbound and due not before its lease ends; it is remembered as rejected only for a client error that is neither a timeout nor a rate limit |
| RecoveryProgress.LiveLinkIsWritten | internal/payments/reconcile.go:364-392 | A verified PENDING, PROCESSING or UNDERPAID link that needs no recovery ends as exactly that status |
| RecoveryProgress.TerminalLinkIsWritten | internal/payments/reconcile.go:364-404 | A verified CANCELLED, EXPIRED or FAILED link ends as exactly that status, looked at again when retention ends |
| RecoveryProgress.OddLinkIsRetried | internal/payments/reconcile.go:348-356 | A foreign link or an unknown status changes nothing but the schedule and the error |
| RecoveryProgress.QrIsRecovered | internal/payments/reconcile.go:364-460 | A pending link without a stored QR is created once more under the known link, and its QR stored |
| RecoveryProgress.QrIsAskedForOnce | internal/payments/reconcile.go:364-392 | After one attempt the link is cancelled instead |
| RecoveryProgress.AbsentOrderIsCreatedAgain | internal/payments/reconcile.go:406-460 | An order whose Create never reached the provider is created again before it expires, and bound |
| RecoveryProgress.AbsentOrderIsGivenUp | internal/payments/reconcile.go:406-424 | A rejected one fails; one past its time keeps its status until retention ends |
| RecoveryProgress.UnavailableIsRetried | internal/payments/reconcile.go:490-516 | Any other failure of a Get is retried after the backoff; a remembered rejection or open cancellation stays remembered |
| RecoveryProgress.RepeatedCreateFails | internal/payments/reconcile.go:426-460 | A repeated Create without a usable answer is retried, and a definite rejection remembered |
| RecoveryProgress.CancellationIsWritten | internal/payments/cancel.go:86-129 | A confirmed cancellation or expiry is written, whether Cancel or the Get behind it reported it |
| RecoveryProgress.CancelFindsPayment | internal/payments/cancel.go:98-129 | A Get behind a Cancel that finds the link PAID goes on to settle it, as a cancellation if the operator asked for one |
| RecoveryProgress.OpenCancellationIsRemembered | internal/payments/cancel.go:86-129 | A cancellation that nothing decided is retried under its own error code |
| RecoveryProgress.OpenCancellationIsResumed | internal/payments/reconcile.go:364-424 | A later Get that still finds the link live, or gone, goes on with that cancellation |
| RecoveryProgress.FailedSettlementIsRetried | internal/payments/reconcile.go:352-363 | A settlement not built, reviewed or refused is retried as pending details |
| RecoveryTheorems.NoOrphan | internal/storage/payment_orders.go:259-273 | Until 24 h after expiry an unpaid order is scheduled, not before its lease ends, and from then on is selected and can be claimed |
| RecoveryTheorems.AtMostOneQrRecovery | internal/payments/reconcile.go:426-460 | At most one QR-recovery Create and one first Create per order over every run |
| RecoveryTheorems.RepeatedCreateFollowsAbsence | internal/payments/reconcile.go:406-424 | Any other Create follows a 404 Get under the same token, answered before expiry |
| RecoveryTheorems.TerminalWritesAreJustified | internal/payments/reconcile.go:352-424 | CANCELLED and EXPIRED follow a reply with that status for the same code, amount and link under the writing token; FAILED that, or a definite Create rejection and then a 404 |
| RecoveryTheorems.TerminalStatusWasWritten | internal/payments/cancel.go:98-129 | No order has a terminal status that was not written so |
| RecoveryTheorems.TerminalWriteIsOwned | internal/payments/cancel.go:55-71 | In every run only a completion under the owning token makes a status terminal |
| Admission.CommitsUseCurrentCredentials | internal/storage/payment_provider_config.go:51-64 | Over every run live operations and commits under a token use the current credentials, every order belongs to the configured client, a confirmed webhook was confirmed with the current keys |
| Admission.RevisionMayMoveUnderLiveOperation | internal/storage/payment_provider_config.go:147-223 | A run in which a flags-only save moves the revision under a live operation, whose credentials stay current |
| Admission.ClientIsForever | internal/storage/payment_provider_config.go:170-190 | Once an order exists under a configured client, the client id never changes |
| Admission.QuiesceIsABarrier | internal/payments/reconcile.go:99-137 | After Quiesce found no live operation nothing commits under a token until Resume |
| Admission.LockIsABarrier | internal/storage/deployment_control.go:324-352 | While an unexpired lock is held nobody else commits, configures, issues or takes the gate |
| Admission.FenceRises | internal/storage/deployment_control.go:91-242 | The fence generation never falls and every later acquisition raises it |
| AdmissionAnswers.SaveIff | internal/storage/payment_provider_config.go:147-223 | A save completes iff well-formed, admitted, its client may be named and no key changes under a live operation; each blank key keeps its own stored value, the flag is the given one |
| AdmissionAnswers.SaveRefusalIff | internal/storage/payment_provider_config.go:147-223 | Each refusal has exactly one condition |
| AdmissionAnswers.OperationIsAdmittedIff | internal/storage/payment_provider_config.go:227-262 | Admitted iff the gate is open, the provider configured and not quiesced; the other live operations are left as they are |
| AdmissionAnswers.GateIsGrantedIff | internal/storage/deployment_control.go:91-176 | Granted iff no other owner holds it unexpired; nothing is admitted before it expires, within a second of the time asked for |
| AdmissionAnswers.GateIsReleasedIff | internal/storage/deployment_control.go:178-242 | Released iff owned, expired or forced; then everything live is admitted again |
| AdmissionAnswers.GateRoundTrip | internal/storage/deployment_control.go:91-242 | Taking and giving back the gate leaves only a higher fence |
| AdmissionAnswers.SlotIsGrantedIff | internal/storage/payment_provider_config.go:327-352 | Granted iff admitted and not quiesced, at the earliest free instant |
| AdmissionAnswers.WebhookIsConfirmedIff | internal/storage/payment_provider_config.go:287-308 | Confirmed iff checked under the current revision of a configured provider |
| AdmissionAnswers.MoneyIsCommittedIff | internal/storage/deployment_control.go:324-351 | A transaction under the mutation check commits iff the gate is open and its token, if any, is a live operation's; it records the credentials in force |
| AdmissionAnswers.OrderIsIssuedIff | internal/storage/payment_orders.go:143-222 | An order is issued iff its operation is live and the gate open, to the configured client |
| GatedLedger.ReceiptsNeedCurrentCredentials | internal/storage/payment_provider_config.go:51-64 | In joint runs of payments, saves, leases, quiesces and gate: a step that adds a receipt or order met an open gate, and under a token a live operation pinned to the credentials in force |
| GatedLedger.RunKeepsInv | internal/storage/payment_provider_config.go:51-64 | Ledger and admission control keep their invariants together, and agree on every order's channel |
| AdmissionStore.Store.ActiveRequests | internal/storage/payment_provider_config.go:321-325 | Counts exactly the unexpired operations |
| AdmissionStore.Store.CheckMutationAllowed | internal/storage/payment_provider_config.go:51-64 | Allowed iff the token's operation is live and no unexpired lock is held |
| AdmissionStore.Store.SavePaymentProviderConfig | internal/storage/payment_provider_config.go:147-223 | Merged keys, channel lock, busy check, revision and confirmation exactly as specified |
| AdmissionStore.Store.BeginPaymentProviderOperation | internal/storage/payment_provider_config.go:227-262 | Drops expired operations and admits one pinned to the current credentials, or refuses |
| AdmissionStore.Store.RenewPaymentProviderOperation | internal/storage/payment_provider_config.go:264-278 | Extends only a live operation |
| Admission.SlotsAreSpaced | internal/storage/payment_provider_config.go:327-352 | Over every run two provider requests get slots at least a second apart and never in the past |
| AdmissionStore.Store.PaymentProviderRequestSlot | internal/storage/payment_provider_config.go:327-352 | Hands out the later of now and the next free slot, and moves that on by a second |
| AdmissionStore.Store.AcquireMutationGate | internal/storage/deployment_control.go:91-176 | Takes the gate unless another owner holds it unexpired |
| AdmissionStore.Store.ReleaseMutationGate | internal/storage/deployment_control.go:178-242 | Opens the gate for its owner, after expiry or by force |
| AdmissionStore.Store.RenewMutationGate | internal/storage/deployment_control.go:244-288 | Extends the gate of the matching owner and token only |
| DrainBarrier.DrainIsABarrier | internal/notification/dispatcher.go:80-107 | In any run a pause and a later look at an empty counter make a barrier: nothing enters and nothing takes effect before Resume |
| DrainBarrier.DrainedIsABarrier | internal/notification/dispatcher.go:204-212 | The same from any counted state |
| DrainBarrier.RunCounts | internal/payments/reconcile.go:169-189 | The counter always equals the workers inside |
| DrainBarrier.Dispatcher.Drain | internal/notification/dispatcher.go:86-100 | A drain returns success iff nobody is inside, whatever the workers do between polls, and is then a barrier over every continuation without Resume |
| SePayRuns.CreditedAtMostOnce | internal/storage/sepay.go:157-324 | Over every interleaving of Telegram messages, native webhooks, redeliveries and timely saves, a store's transfer is credited at most once, by an amount in range |
| SePayRuns.PromptRunsCreditOnce | internal/sepay/managed.go:347-357 | The same whenever a save stamps its own instant, instants increase and no transfer is reported before it happened |
| SePayRuns.PromptRunsAreTimely | internal/sepay/managed.go:350-357 | Such runs make every save timely |
| SePayRuns.OnlyAuthorityCredits | internal/sepay/service.go:78-79 | Only the active authority credits, from its cutoff on, under the current revision and an open gate |
| SePayRuns.InvCreditsOnce | internal/storage/sepay.go:559-684 | Two credits of one transfer in one store are the same credit |
| SePayTheorems.StampDecidesSecondCredit | internal/sepay/managed.go:350-357 | After a switch to Telegram the report of a natively credited transfer is credited again iff the stamp is not later than the transfer |
| SePayTheorems.LateStampCreditsTwice | internal/sepay/managed.go:350-373 | A run with a late stamp that credits one transfer twice |
| SePayTheorems.EveryCreditHasOneReport | internal/storage/sepay.go:157-324 | Each credit is backed by exactly one ACCEPTED inbox row of its transport, and each such row by one credit |
| SePayTheorems.StoreKeyIsForever | internal/storage/sepay_config.go:80-84 | After the first native acceptance the store key never changes |
| SePayTheorems.RunExtends | internal/storage/sepay.go:125-155 | Inbox rows, receipts, credits, candidates and pinned receivers are never changed or removed |
| SePayTheorems.NotificationRedeliveryIsIdle | internal/storage/sepay.go:222-239 | A redelivered message that was answered changes nothing |
| SePayTheorems.WebhookRedeliveryIsIdle | internal/storage/sepay.go:598-612 | A redelivered webhook that was answered changes nothing |
| SePayStore.Store.IngestSePayNotification | internal/storage/sepay.go:157-324 | Insert first, checks, verdict, finish: the whole new state and result, with rollback on refusal |
| SePayStore.Store.IngestSePayWebhook | internal/storage/sepay.go:540-684 | The same for native webhooks; which ones are credited is `SePayAnswers.WebhookCreditsIff` |
| SePayTheorems.NotificationCreditsIff | internal/storage/sepay.go:157-324 | A notification is credited iff admitted, new as update and message, in need of no review, complete, with a new reference, at or after the cutoff, and the store is active |
| SePayTheorems.KnownReferenceIsDuplicateIff | internal/storage/sepay.go:276-287 | A new message about a known reference moves no money: a duplicate iff the receipt is for the same transfer, else a quarantined conflict |
| SePayTheorems.KnownMessageIsDuplicateIff | internal/storage/sepay.go:240-262 | A new update about a known message moves no money: a duplicate with the first answer iff it is no edit and repeats text and store, else quarantined as an edit or a conflict |
| SePayAnswers.KnownUpdateIsDuplicateIff | internal/storage/sepay.go:221-239 | A known update files nothing: a duplicate with the first answer iff it repeats text and store, else quarantined as an edit or a conflict |
| SePayAnswers.NewUpdateIsFiled | internal/storage/sepay.go:157-324 | A new update leaves one row, under the reason answered and with the transaction it credited |
| SePayAnswers.WebhookCreditsIff | internal/storage/sepay.go:540-684 | A webhook is credited iff admitted, new, unflagged, in range, at or after the cutoff, the store active, and its reference usable and free; the credit is its own amount and time |
| SePayAnswers.WebhookReasonIff | internal/storage/sepay.go:613-665 | Every other answer to a new webhook, duplicates and conflicts with receipts included, has exactly one condition |
| SePayAnswers.NewWebhookIsFiled | internal/storage/sepay.go:613-684 | A new webhook leaves one row, under the reason answered, with the transaction it credited or repeats, and a quarantine candidate exactly for a taken reference |
| SePayAnswers.KnownProviderIdIsDuplicateIff | internal/storage/sepay.go:598-612 | A known provider id moves no money: a duplicate iff it repeats the first report, else quarantined |
| SePayAnswers.HookCreditsIff | internal/sepay/service.go:116-168 | At the handler: only an incoming transfer at the configured gateway, account and sub-account, under the active native authority, is credited |
| SePayAnswers.ForeignHookIsFiled | internal/sepay/service.go:116-168 | An outgoing transfer or a foreign account is filed as such |
| SePayAnswers.UpdateCreditsIff | internal/sepay/service.go:63-114 | At the handler: only an unedited message of the configured sender about the configured account, under the active Telegram authority, is credited |
| SePayAnswers.ForeignUpdateIsFiled | internal/sepay/service.go:63-114 | An edited, unreadable or foreign message is filed as such |
| SePayAnswers.MessageReasonIff | internal/storage/sepay.go:240-302 | Every other answer to a new message has exactly one condition |
| SePayAnswers.SavedConfiguration | internal/sepay/managed.go:313-373 | What a completed save leaves: the form's fields, the kept secret, the cutoff kept by a staying authority and stamped for a new one |
| SePayAnswers.SaveCompletesIff | internal/sepay/managed.go:212-373 | A save completes iff its revision is current, every field of the form fits, the gate is open, the store key may change, no receipt meets unverified references and the pinned receiver stays |
| SePayStore.Store.EnsureSePayConnection | internal/storage/sepay.go:125-155 | The first observation pins the receiver; another one is refused |
| SePayStore.Store.SaveAdminConfig | internal/sepay/managed.go:313-373 | Revision check, cutoff stamp, validation and the guarded save |
| Journal.BatchIsComplete | internal/storage/journal.go:51-84 | A batch is the next rows in order: nothing between cursor and last row is missing, and a short batch is everything |
| JournalCursor.OutputIsSlice | internal/httpapi/realtime_coordinator.go:144-199 | A kept cursor promise means: the output contains the remaining slice, lies in the historical slice, and equals it when nothing was deleted |
| JournalCursor.PublishKeepsCursor | internal/httpapi/realtime_coordinator.go:128-142 | Handing on the next row, from the journal or a hint, keeps order and completeness |
| JournalCursor.JumpKeepsCursor | internal/httpapi/realtime_coordinator.go:158-161 | Moving over numbers that no row carries any more loses nothing |
| JournalCursor.CursorAtRow | internal/httpapi/sse.go:106-127 | A client that got any prefix holds exactly what was due up to its last id |
| RealtimeCoordinator.Coordinator.Handle | internal/httpapi/realtime_coordinator.go:128-140 | A late hint is passed over, the next one published at once; left alone every surviving row up to the hint is published; always ascending and complete |
| RealtimeCoordinator.Coordinator.Reconcile | internal/httpapi/realtime_coordinator.go:144-199 | Terminates; no undeleted row is skipped or published twice under concurrent appends, deletes and failing reads; left alone it publishes everything up to its target |
| RealtimeCoordinator.Coordinator.Submit | internal/httpapi/realtime_coordinator.go:51-68 | Queues the hint; a full queue drops it and requests recovery |
| RealtimeCoordinator.Coordinator.Run | internal/httpapi/realtime_coordinator.go:112-126 | The same over any inputs; while no query fails, a tick leaves nothing unpublished, and a hint once submitted is queued, about to be recovered, or published, however full the queue was |
| RealtimeCoordinator.Coordinator.Take | internal/httpapi/realtime_coordinator.go:112-126 | One round: the queue, the request and what must have been reached after each input |
| RealtimeCoordinator.Publisher.Process | internal/realtimestream/journal_publisher.go:76-123 | One batch of the worker's publisher skips and repeats nothing; a batch that does not wake itself has reached the end |
| EventStream.Connection.Follow | internal/httpapi/sse.go:149-179 | After a live hint the stream has reached it, through the journal if there was a gap; the connection ends only if a write or query failed or the row is gone and does not come next |
| EventStream.Connection.DrainJournal | internal/httpapi/sse.go:183-205 | Ends, and then every row is behind the watermark unless a write or query failed |
| EventStream.Connection.Serve | internal/httpapi/sse.go:106-181 | A stream that is still alive has reached every hint it was sent, whatever was committed meanwhile; it ends early only if a write or query failed or a hinted row is gone |
| EventStream.Connection.OpenResumed | internal/httpapi/sse.go:75-104 | Resumes after the last id, or resets iff it is past the newest row or before retention |
| EventStream.Client.Run | internal/httpapi/sse.go:57-181 | Over any number of connections without a reset the client holds exactly the filtered slice after its watermark; that is the first one it was told unless it was told a second, only after a first of 0 |
| EventStream.Client.Connect | internal/httpapi/sse.go:57-181 | One undisturbed reconnection with an id the journal still reaches leaves the client with every row it should have seen; a lasting connection with every row hinted at meanwhile |
| EventStream.Client.OnInitialState | web/src/realtime/realtime.client.ts:196-210 | The watermark is adopted only when positive |
| EventStream.EmptyJournalLosesCredit | web/src/realtime/realtime.client.ts:196-210 | A client first told watermark 0 that reconnects misses a credit committed in between |
| EventHub.Hub.Publish | internal/eventhub/hub.go:58-71 | A connected subscriber has every event since it subscribed, in order; exactly the full ones are dropped |
| OutboxRuns.OutboxIsSafe | internal/storage/deliveries.go:56-119 | In every reachable state one unexpired claim per endpoint, no pending delivery out of retries, exhausted undisturbed cycles that took at least their backoffs |
| OutboxRuns.DefaultCycleOutlasts72Hours | internal/notification/dispatcher.go:17-33 | With the shipped constants such a cycle lasts more than 72 hours |
| OutboxRuns.DefaultTotal | internal/notification/dispatcher.go:17-33 | The total of the default backoffs in closed form |
| OutboxRuns.LateCompletionFails | internal/storage/deliveries.go:100-119 | Over every continuation completing or failing with a lost token changes nothing |
| OutboxRuns.TakeoverLosesToken | internal/storage/deliveries.go:56-98 | A takeover loses the previous holder's token |
| OutboxRuns.DeliveredIsFinal | internal/storage/notifications.go:504-542 | A delivered row never changes again |
| OutboxOutcomes.DeliveredIffReported | internal/notification/dispatcher.go:298-301 | In every reachable state a row is delivered iff a holder of its claim reported success, so a reported success is never dead-lettered, retried or replayed |
| OutboxOutcomes.DeadLetterWasReported | internal/notification/dispatcher.go:303-310 | Every dead letter was condemned by a holder: exhausted by a failure worth a retry, else by a final one |
| OutboxOutcomes.OutcomeDecidesRow | internal/notification/dispatcher.go:272-322 | A holder's success delivers; an unavailable endpoint or final failure makes an unexhausted dead letter; a retry waits for the schedule, or is an exhausted dead letter when none is left |
| OutboxOutcomes.ClaimFindsWorkIff | internal/storage/deliveries.go:56-98 | A claim finds a delivery iff one of an active endpoint is due and no other of it is held, and takes what has waited longest |
| OutboxOutcomes.ReplayIff | internal/storage/notifications.go:504-542 | Granted iff a dead letter of an active endpoint, as a new cycle |
| Outbox.Earliest | internal/storage/deliveries.go:63-79 | The claimed delivery is the earliest eligible one by schedule and id; none only if none is eligible |
| OutboxStore.Store.ClaimDelivery | internal/storage/deliveries.go:56-98 | The scan claims exactly that delivery |
| OutboxStore.Store.CompleteDelivery | internal/storage/deliveries.go:100-119 | Completes only under the row's own claim token |
| OutboxStore.Store.FailDelivery | internal/storage/events.go:220-233 | Dead-letters only under the row's own claim token |
| OutboxStore.Store.ReplayDelivery | internal/storage/notifications.go:504-542 | Restarts the cycle of a dead letter of an active endpoint |
| OutboxStore.Store.FinishDispatch | internal/notification/dispatcher.go:272-322 | The outcome and the attempts of this cycle select the branch; what each leaves is `OutboxOutcomes.OutcomeDecidesRow` |
| Amounts.ParseAmountVND | internal/sepay/parser.go:111-146 | Accepts exactly the plain and uniformly grouped texts of 1 to 2^53-1 and reads their value |
| Amounts.FormatThenParse | internal/bark/formatter.go:16-40 | Parsing inverts grouped printing on the whole range |
| Amounts.ParseThenFormat | internal/sepay/parser.go:111-146 | Printing gives back every dotted amount text without leading zeros |
| Amounts.FormattedAmount | internal/bark/formatter.go:16-40 | FormatVND prints an amount as its grouped digits and the currency mark |
| Amounts.FormatVND | internal/bark/formatter.go:16-40 | The builder loop groups from the right, with the sign and the unparsable text handled as in the source |
| EventFrames.WriteThenParse | internal/realtimestream/client.go:262-355 | Parsing a written stream with heartbeats gives exactly the written events and the last id |
| EventFrames.CutDeliversWholeEventsIff | internal/realtimestream/client.go:270-355 | A stream cut anywhere delivers whole events only, under their own ids, iff it ended by an error or the cut is harmless |
| EventFrames.CutEventIsWholeIff | internal/realtimestream/client.go:270-316 | What a clean end inside a frame hands on is the whole event iff the cut is behind its data, or behind the header of an event with nothing more |
| EventFrames.CleanEndInsideData | internal/realtimestream/client.go:270-292 | A clean end inside the data text delivers a truncated event and moves the last id onto it |
| EventFrames.CleanEndAfterIdLine | internal/realtimestream/client.go:270-292 | A clean end behind the id line delivers a stub and moves the last id onto it |
| EventFrames.ReadStream | internal/realtimestream/client.go:302-316 | A failing handler ends the stream with the ids of the events it took |
| EventFrames.IdIsParsed | internal/realtimestream/client.go:380-424 | Id and event field give back epoch, number and type |
| EventFrames.WriteSSEEvent | internal/realtimestream/server.go:182-230 | Writes id, event and data lines and the blank line, in that order |
| EventFrames.ParseStream | internal/realtimestream/client.go:262-355 | The read loop computes the line-by-line specification |
| RouteTool.Tool.Apply | deploy/cloudflare-routes.py:201-243 | At every call, with failures and crashes, the catch-all has its exceptions and each created route is recorded or intended on disk; success means all routes are live; while every call works it succeeds iff the table passes the inspection; if one call fails, effective or not, it ends without a catch-all of its own |
| RouteTool.Tool.TakeBack | deploy/cloudflare-routes.py:237-243 | The handler takes back at most the catch-all, and an attempted one for certain unless another call fails |
| RouteTool.Tool.Restore | deploy/cloudflare-routes.py:159-198 | Keeps the same at every call; a completed full restore leaves the original table, a catch-all restore every other route; while every call works it completes iff nothing drifted and, with an intent pending, the table passes the inspection; a stuck snapshot stays stuck |
| RouteTool.Tool.RestoreAgain | deploy/cloudflare-routes.py:165-179 | Once a recorded route is gone and not marked, no number of restores completes, under any faults |
| RouteTool.LostDeleteSticks | deploy/cloudflare-routes.py:183-195 | A run in which a delete takes effect, reports an error, and the snapshot is stuck |
| RouteTool.SecondSnapshotStrandsCatchAll | deploy/cloudflare-routes.py:180-195 | Two runs after which a restore of the first snapshot, which has not drifted, leaves the catch-all without an exception |
| RouteTool.Tool.ApplyThenRestore | deploy/cloudflare-routes.py:159-243 | A completed restore after any apply and any earlier restores, however they ended, gives the original table |
| RouteTool.Tool.ResolvePending | deploy/cloudflare-routes.py:142-156 | The intent becomes a recorded change if its write took effect and is dropped without one if not; left alone it succeeds iff the table passes the inspection |
| RouteTool.CreateKeepsTable | deploy/cloudflare-routes.py:222-232 | Creating an intended route keeps table, record and safety |
| RouteTool.DeleteKeepsTable | deploy/cloudflare-routes.py:180-195 | Deleting a created route keeps them when it is the catch-all or the catch-all is gone |
| Routes.RestoreOrderIsSafe | deploy/cloudflare-routes.py:180-195 | A list of deletions is safe at every step iff a live catch-all is among them or no exception is |
| Routes.SnapshotRestoreIsSafe | deploy/cloudflare-routes.py:159-195 | The same condition on a snapshot: one that lacks the live catch-all must not delete exceptions |
| Cutover.Driver.Operate | deploy/migrate-payos-runtime.py:877-1015 | Over every crash-and-resume schedule each database replacement found all writers down, no order or receipt, no restarted legacy release and no log; no order, receipt or legacy row is lost; a row of the candidate's is lost iff some replacement found one; each central mode is dispatched at most once |
| Cutover.RollbackDropsCandidateRows | deploy/migrate-payos-runtime.py:932-1015 | A cutover, rows recorded by the candidate and a rollback: the database ends with the rows it had before |
| Cutover.NothingDroppedIff | deploy/migrate-payos-runtime.py:966-991 | No row was dropped iff every replacement found the legacy release's rows and no more |
| Cutover.Driver.Rollback | deploy/migrate-payos-runtime.py:932-1000 | One rollback invocation, from whatever an earlier one left. Left alone: behind a backup and before any order it completes with the backup's rows and schema, the legacy release alone running and a published frontend reverted once; behind an order it is refused with every row kept; without a backup, or once the legacy release may have run, no database is replaced |
| Cutover.Driver.Apply | deploy/migrate-payos-runtime.py:877-925 | One apply invocation, refused once a rollback was requested. Left alone before any order it completes from every phase; from the start it ends with the candidate alone running on the new schema, the drained database backed up and the frontend published once |
| Cutover.Driver.RestoreDatabase | deploy/migrate-payos-runtime.py:966-991 | Counts again with every writer down, empties the log, then copies; completed, it drops no row iff it found no more than the backup has |
| Cutover.Driver.CopyBackup | deploy/migrate-payos-runtime.py:126-149 | The replacement, allowed only behind the boundary, leaves exactly the legacy release's rows |
| Cutover.Driver.DrainLegacy | deploy/migrate-payos-runtime.py:541-577 | The backup is taken after all writers stopped, and a durable one is kept |
| Cutover.Driver.CentralOperation | deploy/migrate-payos-runtime.py:748-768 | Journals the intent before the dispatch and never dispatches a journalled mode again |
| Cutover.Driver.FinishRollback | deploy/migrate-payos-runtime.py:1001-1015 | The legacy release starts only behind a durable mark |

## Left out

- HTTP routing, authentication, CSRF, headers, rate limits, pagination cursors and the web UI.
- Encryption, HMAC, key rotation and random generation: injective encodings and fresh values.
- The payOS SDK and the Telegram API: any reply may come; their internal retries are not modelled.
- SQL text, drivers, migrations and table schemas; keys are those of the `ON CONFLICT` clauses.
- Bank name, account name, bank BIN, description and checkout URL of an order: copied by the same
  rule as the QR text, which is modelled.
- The recovery workers of `reconcile.go`, `cancel.go` and `order_create.go` are a step machine on
  values, because the property is about crashes between their steps; only the backoff loop is a
  method. The in-process wake channels and the batch limit of due orders are not modelled.
- The deployment gate's missing-table bootstrap, its reason text and its status report.
- The credential history and webhook verification keys of earlier provider revisions.
- SePay: parsing of message texts beyond amounts, the field patterns of the admin form (a boolean
  that only refuses), notification details, topic ids, events and deliveries of accepted credits
  (the same event transaction as for payOS), payload size limits, and Unicode spaces are taken
  from one fixed list.
- The JSON projection of public credit events in the event stream, its heartbeats and its retry
  line; malformed cursors, which only reset the stream.
- bufio chunking in the event reader and wall-clock write deadlines.
- Delivery attempt records, endpoint revisions, keys and the next-due query of the outbox.
- Route pagination, zone and schema checks of a snapshot, and updates of routes that existed before
  (a snapshot with such a change has the same value before and after).
- A crash inside the write of a journal or snapshot file itself: the write is atomic, so a temporary
  file left behind, which the tool would refuse to overwrite, is not modelled.
- Cutover: artifact, image, receipt and health proofs are commands that may fail; the deployment
  gate is a database write, since the order of stop, count and copy does not rely on it; the
  deploy-and-publish path after the cutover; starting only some of a release's services is either
  all or nothing.
