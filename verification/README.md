# Karin Bank in Dafny

A model of the parts of Karin Bank that keep several records of the same money, and proofs that the records agree.
`dafny verify dfyconfig.toml` checks the whole project.

Each component has one specification step on values (`Step`, `Next`, `Serve`) and, where the program updates state in
place, a class whose methods do the same branch by branch: their contracts say `View() == Step(old(View()), …)`.
The bank's service, the gateway and the scheduler also remember the state they opened with, and their `Valid()` says
that the books agree with it: every public method keeps it. A run is a sequence of operations, and the theorems are
about every run: failed inserts, crashes, rejected requests and other users' business in between.

| Files | What they hold |
|---|---|
| `Payloads` | JSON payloads and the encryption of their sensitive fields |
| `Consumer`, `RowColumns`, `ConsumerSteps` | the Kafka consumer, the row of a message column by column, and what one round does |
| `Delivery`, `ConsumerApp` | its delivery guarantees, and the poll loop as a class |
| `Outbox`, `SyncChecker`, `EventStore` | the outbox relay, settlement and repair, and the tables they update |
| `Pipeline`, `RepairPass` | all of these interleaved; what a repair pass and its delivery achieve, and what they never repair |
| `FedLedger`, `FedPostings`, `FedGateway` | the Fed gateway's master accounts and logs, what one request does to them, and its handlers |
| `BankLedger`, `BankBooks`, `Ownership`, `BankService` | the bank's balances and rows, the bookkeeping theorems, whose money moves, and the services |
| `LedgerToWarehouse` | from a row of the bank's ledger to its row in ClickHouse |
| `RowLocks`, `Deadlock` | concurrent transfers under row locks, and when they deadlock |
| `Idempotency`, `SingleCommit` | idempotency keys around two commits and around one |
| `Schedule`, `ScheduleBooks` | scheduled payments, their accounting and spacing |
| `ScheduleEffects`, `ScheduleWorker` | who pays whom and when a schedule ends, and the worker |
| `Dates`, `Luhn`, `Cents`, `AccountNumber` | calendar arithmetic and the small codecs |
| `Numerals`, `Wrappers` | decimal numerals as Python and JavaScript read them; `Option` and `Outcome` |

What the program gets from outside comes with the operation: clock readings, the answers of Kafka, ClickHouse and the
vendor simulator, and where a crash falls. Generated identifiers are a counter in the bank, so they are fresh, and
arrive with the request at the gateway. Fernet is a pair of functions with its inverse law as a precondition
(`Lawful`). ClickHouse is a sequence of rows, and a query answer is any sequence that the query allows (`IsAnswer`):
ties may come in either order and merged duplicates may be missing.

Where the code and what is said about it part ways, the model follows the code:

- The consumer promises at-least-once delivery, but a message that raises or lacks fields, and a full batch whose flush
  raises, commit offsets while earlier messages are only buffered. `DeliveryExactly` says that a run keeps everything
  committed stored if and only if no step is such a commit with an unsaved message buffered;
  `BadMessageLosesBufferedOne` gives the losing runs, for text that is not JSON and for missing fields alike
  (`MissingFieldsLoseBufferedOne`). After a commit that did not arrive nothing more is committed until a new message
  or a restart (`LostCommitNeedsRestart`).
- A repair event carries the creation time of its transaction, so a pass and its delivery repair a differing status if
  and only if the newest row is older than that (`DifferenceRepairedExactlyWhenNewer`). Where that row is later, no
  number of passes does, and each of them queues one more event (`NeverRepaired`, `SurvivingDifference`).
- Sensitive fields are encrypted through nested dictionaries, but not inside lists (`EncryptSeals`).
- The daily statement sums its logs over all time and leaves ACH out of the opening balance
  (`OpeningMovesWithAchOnly`). An ACH batch logs SETTLED entries and moves no balance (`OriginateAchBatch`).
- FedNow does not look at the daylight limit (`FedNowWithinLimitsExactly`, `FedNowBreaksALimit`).
- A vendor payment that the simulator refuses is still debited and recorded as failed (`RefusedPaymentStillDebits`),
  and a scheduled one also counts as made (`RefusedPaymentCounts`). A failed scheduled attempt writes a debit row that
  moved no money, and a subscription fee moves money without a row (`SubscriptionIsNotInTheRows`);
  `RowsExplainBalanceExactly` says when the rows alone still explain a balance.
- Internal transfers sort the two ids before they lock, but only for the `IN` list: the query has no `ORDER BY`, so
  the rows may be locked in either order. Serializability needs no order (`Serializable`). A deadlock can be reached
  if and only if the lock orders form a ring (`DeadlockExactly`), two opposite transfers can do it
  (`OppositeTransfersDeadlock`), and an ascending order would rule it out (`NoDeadlock`, `AllCanFinish`).
- The interval of a schedule is never passed on, so One-time and specific-day schedules never run
  (`OnlyRecurringPay`). The retry count is never reset: three failures in a lifetime end a schedule (`Accounting`).
- Neither creation nor a retry nor the poll looks at the end date of a schedule, so a payment is made past it whenever
  it is due and payable at such a time (`PaidPastEndExactly`, `FirstPaymentIgnoresEndDate`, `RetryIgnoresEndDate`).
  It happens at most once, as the last payment (`OnlyLastPastEnd`).
- The "next occurrence" of a day of the month is always looked for in the next month (`NextOccurrenceExactly`).
- The amount parsers of backend and frontend are meant to be one. They differ if and only if the frontend reads the
  digits in front of something that the backend refuses (`ParsersExactly`).
- The key of an internal transfer is completed in a second commit, so a crash between the commits lets a retry
  transfer again; `EffectsCounted` counts exactly how often.
- Top-ups, subscriptions, admin credits and transfers between users complete their key in the commit that applies
  them. Their session does not flush by itself (backend/database.py:29), so the first completion does not find the key
  that the same request has added, and leaves it pending: a redelivery is applied a second time, and only then is the
  key completed. A key works at most once if and only if at most one delivery reaches its commit
  (`AtMostOnceExactly`, `CreditedAtMostTwice`, `TransferAppliedTwice`); a payment request stops the second transfer
  (`RequestStopsRetries`).

## Model

| member | source | states |
|---|---|---|
| `Payloads.EncryptPayload` | backend/outbox_service.py:22-33 | the loop encrypts every non-empty sensitive string at every depth of nested dictionaries and changes nothing else |
| `Payloads.DecryptPayload` | backend/security_utils.py:53-82 | the loop decrypts every marked sensitive string at every depth and leaves a field that fails to decrypt as it is |
| `Payloads.StringsExactly` | backend/outbox_service.py:17-33 | of all strings exactly the non-empty ones under the eight sensitive names are encrypted, and those behind the marker that can be decrypted are |
| `Payloads.RoundTrip` | backend/outbox_service.py:22-33 | decrypting what the relay encrypted gives the payload back, for every nested payload: empty strings, values that already carry the marker and sensitive keys with dictionaries included |
| `Payloads.EncryptInjective` | backend/outbox_service.py:22-33 | two payloads that encrypt alike are the same payload |
| `Payloads.EncryptSeals` | backend/outbox_service.py:27-31 | what leaves the relay is sealed at every depth, lists included, if and only if the lists that nested dictionaries lead to already were; every dictionary keeps its keys |
| `Payloads.NoListsAreSealed` | backend/outbox_service.py:27-31 | so a payload without lists is sealed at every depth |
| `Pipeline.MessageReadsBack` | backend/consumer.py:124-138 | the consumer reads an event's message as its payload, accepts it exactly when the payload has the required keys of its topic, and the row it becomes tells the payload column by column |
| `RowColumns.RowExactly` | backend/handlers/message_handlers.py:38-74 | a row is built exactly from an object with the required keys and a readable time, and each column is the value of its own key: amount, account, category, merchant, type, side, parent and the rest, with the stated defaults for missing or empty ones; activity rows likewise |
| `RowColumns.MessageTold` | backend/handlers/message_handlers.py:38-74 | the row of a message tells the decrypted message in this sense |
| `ConsumerSteps.ReadExactly` | backend/consumer.py:96-138 | how each kind of message is read: an object is accepted exactly with all the keys its topic needs, a string or list that mentions them all is accepted too but never becomes a row, anything else raises or counts as malformed |
| `ConsumerSteps.UnacceptedIsDropped` | backend/consumer.py:123-152 | a message that is not accepted is passed over and the position committed; one with missing fields is noted, and nothing is buffered or inserted |
| `ConsumerSteps.AcceptedIsBuffered` | backend/consumer.py:140-148 | an accepted message joins its topic's buffer, and below a hundred buffered messages nothing else happens |
| `ConsumerSteps.HundredthFlushes` | backend/consumer.py:147-148 | the hundredth buffered message inserts both buffers in order, transactions first, commits the position and empties them |
| `ConsumerSteps.IdleFlushesExactly` | backend/consumer.py:112-114 | an idle poll does the same if and only if five seconds have passed since the last flush |
| `ConsumerSteps.BuffersStayBelowHundred` | backend/consumer.py:147-148 | over any run of deliverable messages whose inserts arrive, the buffers never hold a hundred messages |
| `ConsumerApp.KafkaConsumerApp.constructor` | backend/consumer.py:29-39 | a new process has empty buffers and polls from the committed offsets |
| `ConsumerApp.KafkaConsumerApp.CommitOffsets` | backend/consumer.py:81-81 | a commit moves every committed offset to the position, if it arrives |
| `ConsumerApp.KafkaConsumerApp.FlushAll` | backend/consumer.py:59-84 | both buffers are inserted, and committed and cleared only if both inserts are reported to have succeeded; a partial failure keeps both |
| `ConsumerApp.KafkaConsumerApp.HandleMessage` | backend/consumer.py:123-152 | one message: error and malformed messages commit, complete ones are buffered by topic, a full buffer is flushed |
| `ConsumerApp.KafkaConsumerApp.PollLoop` | backend/consumer.py:103-159 | the loop over any sequence of messages, idle polls, broker errors, shutdowns and crashes is the run of the specification |
| `Delivery.AtLeastOnce` | backend/consumer.py:59-152 | if every message decodes, validates and prepares, every run with failed inserts, lost commits and crashes leaves a row for every message below the committed offset, and every polled one stored or buffered; that row tells the message column by column |
| `Delivery.BuffersAreTheUncommitted` | backend/consumer.py:59-148 | the two buffers are exactly the messages from the committed offset to the position, in order, split by topic |
| `Delivery.StepDurableExactly` | backend/consumer.py:131-152 | over any messages, where everything committed is stored a step keeps that so if and only if it is not a commit outside a successful flush, for a message that raises or lacks fields or a full batch whose flush raised, while a buffered value has no row |
| `Delivery.DeliveryExactly` | backend/consumer.py:103-159 | over any run from a fresh process, with failed inserts, lost commits and restarts, everything committed is stored at every point if and only if no step is such a commit |
| `Delivery.StepKeepsCoverageExactly` | backend/consumer.py:103-159 | a step keeps every polled message stored or buffered if and only if it is not a restart that finds a committed message which only the buffers hold |
| `Delivery.BadMessageLosesBufferedOne` | backend/consumer.py:128-152 | any deliverable message followed by one that is not accepted and a crash is committed and never inserted |
| `Delivery.MissingFieldsLoseBufferedOne` | backend/consumer.py:130-138 | text that is not JSON and an object without the required fields both do this |
| `Delivery.RowsComeFromMessages` | backend/handlers/message_handlers.py:38-74 | over any messages and failures, every row ClickHouse gains is the row of a message of the log, and tells it column by column |
| `Delivery.RunKeepsRows` | backend/consumer.py:66-74 | no run removes or reorders rows |
| `Delivery.CanDrainSmoothly` | backend/consumer.py:103-152 | while no commit has been lost, some continuation without new messages, crashes or shutdowns leaves nothing undelivered |
| `Delivery.CanDrain` | backend/consumer.py:103-159 | from every reachable state over deliverable messages some continuation without new messages leaves nothing undelivered; it may start the process again |
| `Delivery.LostCommitNeedsRestart` | backend/consumer.py:61-84 | where everything is polled and flushed but a commit did not arrive, nothing short of a new message or a restart changes anything |
| `EventStore.Store.SendToKafka` | backend/outbox_service.py:76-125 | sending one event: what reaches Kafka, and the new status of the event and of its transaction for success, failure and a crash after the send |
| `Outbox.SendExactly` | backend/outbox_service.py:95-125 | a completed send marks the event processed and its transaction processing, unless that is cleared, settled, failed or cancelled; a failed one marks the event failed, a crash nothing |
| `EventStore.Store.MarkTxProcessing` | backend/outbox_service.py:98-101 | only the event's transaction moves to processing, and only from a status that is not terminal |
| `EventStore.Store.ProcessBatch` | backend/outbox_worker.py:21-42 | a round sends its events one after the other and what lands in Kafka is the messages of the successful ones in order |
| `Outbox.SendTakesOneOffTheQueue` | backend/outbox_service.py:95-125 | a send takes exactly its event off the pending queue, unless the process dies after the send |
| `Outbox.BatchTakesEachOffTheQueue` | backend/outbox_worker.py:21-42 | a batch takes each of its events off the queue, each with the status its send ended with, and touches no other |
| `EventStore.Store.AutoSettle` | backend/sync_checker.py:17-43 | the settlement loop changes exactly the rows the pass selects and appends their events |
| `EventStore.Store.SettleRow` | backend/sync_checker.py:29-42 | one turn of the loop settles its row, if it is due, with one event |
| `SyncChecker.SettleIsComplete` | backend/sync_checker.py:17-43 | a pass makes exactly the transactions of 45 seconds or older in one of the four open statuses cleared, changes nothing else, leaves none behind, and queues exactly one new event for each |
| `SyncChecker.SettleEventsMembers` | backend/sync_checker.py:29-42 | the events of a pass are exactly the cleared reports of the due rows |
| `SyncChecker.AddAnswer` | backend/sync_checker.py:66-67 | of the rows of one answer the first of each id wins |
| `SyncChecker.LookupStatuses` | backend/sync_checker.py:57-67 | the lookup in slices of 1000 ids gives every id with rows the status of a newest row, and no other id anything |
| `SyncChecker.SingleQueryStatuses` | backend/sync_checker.py:62-67 | so does one query over all ids |
| `SyncChecker.StatusesDetermined` | backend/sync_checker.py:63-67 | where the newest rows of each id agree there is only one such map |
| `SyncChecker.ChunksEqualOneQuery` | backend/sync_checker.py:58-67 | hence the chunked lookup equals a single query, whatever order ties come in |
| `SyncChecker.SyncEventsCount` | backend/sync_checker.py:69-88 | a pass queues exactly one event for each missing or differing transaction and none for the others |
| `SyncChecker.SyncEventsMembers` | backend/sync_checker.py:70-88 | the events queued are exactly the repairs of the transactions that need one |
| `SyncChecker.QueuesNothing` | backend/sync_checker.py:48-90 | a pass queues nothing if and only if nothing is old and open and ClickHouse has the status of every transaction of the last seven days |
| `SyncChecker.RepairExactly` | backend/sync_checker.py:69-75 | a transaction gets a created event if ClickHouse has no status for it, a status update if it has another one, and nothing if it has the same, settled and sent counting as cleared |
| `EventStore.Store.QueueRepairs` | backend/sync_checker.py:69-87 | the comparison loop queues those repairs in order |
| `EventStore.Store.RunSyncCheck` | backend/sync_checker.py:48-90 | a whole pass with the chunked lookup is settlement and repair against a single lookup; a failed query keeps the settlement and queues nothing |
| `Pipeline.TerminalIsFinal` | backend/outbox_service.py:95-103 | in every interleaving of sends, passes, new transactions and consumer steps a terminal status never changes |
| `Pipeline.StatusesStayKnown` | backend/sync_checker.py:21-30 | every status a run can produce is either open for settlement or terminal |
| `Pipeline.SettlementIsComplete` | backend/sync_checker.py:17-43 | after any run, a settle pass leaves every transaction of 45 seconds or older terminal |
| `Pipeline.NoEventIsLost` | backend/outbox_service.py:76-104 | in every run of relay, checker and failing consumer, a sent event has its message in the log, and its row is in ClickHouse once that offset is committed, telling its payload column by column |
| `Pipeline.DrainedMeansStored` | backend/consumer.py:59-84 | once the consumer has caught up, ClickHouse has gained the rows of all sent events and no others |
| `Pipeline.CanCatchUp` | backend/outbox_worker.py:14-47 | from every drained world with deliverable events some run of relay and consumer, without a restart, sends and delivers everything |
| `RepairPass.RepairIsQueued` | backend/sync_checker.py:70-88 | a windowed transaction that is missing or differs gets a pending event with its effective status |
| `RepairPass.RoundGains` | backend/sync_checker.py:17-88 | over a pass and any relay and consumer run that delivers its events, transactions only settle, no row is lost, and every row gained reports one of the transactions: its account, amount, category, merchant, type, side, parent, effective status and creation time |
| `RepairPass.WindowedArrives` | backend/sync_checker.py:70-88 | afterwards, whatever ClickHouse held, every windowed transaction has a row, and its newest rows agree with it if it was missing or they did before |
| `RepairPass.RepairFixpoint` | backend/sync_checker.py:48-90 | from a quiescent pipeline whose windowed transactions are terminal and missing or agreeing, one pass and any relay and consumer run that delivers its events make the next pass queue nothing |
| `RepairPass.DifferenceRepairedExactlyWhenNewer` | backend/sync_checker.py:81-88 | from any quiescent world, a difference the pass sees is gone after the pass and any run that delivers its events if and only if the newest row is older than the creation time which the repair event carries |
| `RepairPass.RoundKeepsQuiescent` | backend/sync_checker.py:48-90 | such a round leaves nothing under way, so another can follow |
| `RepairPass.QueuedOnce` | backend/sync_checker.py:69-88 | a pass queues exactly one event about a transaction that needs a repair |
| `RepairPass.DifferenceSurvives` | backend/sync_checker.py:81-88 | if the newest row is later than the creation time it stays the newest, and the pass queues the transaction once more |
| `RepairPass.NeverRepaired` | backend/sync_checker.py:48-90 | so after any number of passes and deliveries the difference is still there, and as many events have been queued for it |
| `RepairPass.SurvivingDifference` | backend/sync_checker.py:81-88 | there is such a world for every cleared transaction |
| `LedgerToWarehouse.EveryRowArrives` | backend/sync_checker.py:54-88 | after any run of the bank, one pass and any relay and consumer run that delivers its events, every windowed ledger row has a row in ClickHouse, internal-transfer legs without an event of their own included; every row that arrived about it carries its account, amount, category, type, side, parent and status; and its newest one has its status unless ClickHouse held a contrary row before |
| `LedgerToWarehouse.EmittedEventCarriesRow` | backend/services/event_emitter.py:68-87 | the event emitted with a ledger row becomes a ClickHouse row that carries it, column by column |
| `LedgerToWarehouse.TableIsTerminal` | backend/services/account_service.py:114-125 | the rows a run of the bank records have distinct ids and terminal statuses, so no pass ever settles them |
| `LedgerToWarehouse.RoundIsPossible` | backend/outbox_worker.py:14-47 | such a pass and delivery exist for every run of the bank and every quiescent world |
| `FedGateway.Gateway.OriginateFedwire` | mock-fed-gateway/routers/fedwire.py:27-95 | the handler with its checks in order; an accepted wire is logged and moves both balances, a rejected one leaves no trace; every balance still agrees with the logs since seeding, and no limit is newly broken |
| `FedGateway.Gateway.TransferFedNow` | mock-fed-gateway/routers/fednow.py:13-92 | the handler; a closed creditor account logs a rejected transfer and moves nothing; every balance still agrees with the logs since seeding |
| `FedGateway.Gateway.RequestForPayment` | mock-fed-gateway/routers/fednow.py:94-112 | a request is logged as pending and moves nothing; every balance still agrees with the logs since seeding, and no limit is newly broken |
| `FedGateway.Gateway.OriginateAch` | mock-fed-gateway/routers/ach.py:56-167 | the handler with its return triggers; a settled entry moves money only between two existing master accounts; every balance still agrees with the logs since seeding |
| `FedGateway.Gateway.OriginateAchBatch` | mock-fed-gateway/routers/ach.py:169-238 | the loop logs one row per entry, its summary counts settled and returned rows and adds debits and credits, and no balance moves; every balance still agrees with the logs since seeding, and no limit is newly broken |
| `FedGateway.Gateway.AdjustMasterAccount` | mock-fed-gateway/routers/settlement.py:34-55 | an adjustment moves one existing balance by the given cents; every balance still agrees with the logs since seeding |
| `FedGateway.Gateway.GetDailyStatement` | mock-fed-gateway/routers/settlement.py:57-128 | after any requests since seeding, the opening balance is the seeded one moved by the adjustments and the single ACH entries and by nothing else, and opening and closing differ by the wires and instant transfers the statement lists |
| `FedGateway.Gateway.BalancesAgree` | mock-fed-gateway/routers/settlement.py:57-128 | whatever the requests since seeding, every balance is the seeded one plus adjustments and settled entries, and the sum of all moves only by what was injected |
| `FedGateway.Gateway.SettleWire` | mock-fed-gateway/routers/fedwire.py:41-83 | the checks of a wire, its log entry and both balances |
| `FedGateway.Gateway.SettleInstant` | mock-fed-gateway/routers/fednow.py:23-83 | the checks of an instant transfer, its log entry, and both balances if it is accepted |
| `FedGateway.Gateway.SettleAch` | mock-fed-gateway/routers/ach.py:56-167 | the checks of an ACH entry, its log entry, and both balances if it is settled |
| `FedGateway.Gateway.LogBatch` | mock-fed-gateway/routers/ach.py:194-229 | the loop of a batch |
| `FedPostings.WirePosts` | mock-fed-gateway/routers/fedwire.py:61-83 | an accepted wire takes its amount from the sender and brings it to the receiver, changes no other balance, and is logged as settled |
| `FedPostings.WireAcceptedExactly` | mock-fed-gateway/routers/fedwire.py:29-57 | a wire is accepted if and only if both institutions are valid and listed, the amount is positive and within the sender's headroom, and its reference numbers are new; the status of a refusal |
| `FedPostings.InstantPosts` | mock-fed-gateway/routers/fednow.py:31-83 | an accepted instant transfer takes its amount from the debtor and brings it to the creditor; one to a closed account is logged as rejected and moves nothing |
| `FedPostings.InstantAcceptedExactly` | mock-fed-gateway/routers/fednow.py:15-31 | it is accepted if and only if both numbers are valid, the creditor participates, its account is not closed, and its id, brought or generated, is new; the status of a refusal |
| `FedPostings.RequestIsLogged` | mock-fed-gateway/routers/fednow.py:94-112 | a request for payment is logged as pending between the parties it names, under a new id, and moves nothing |
| `FedPostings.AchPosts` | mock-fed-gateway/routers/ach.py:121-151 | a settled DEBIT entry takes its amount from the receiver and brings it to the originator, any other entry the reverse, if both have master accounts; no other balance changes, and a returned entry moves nothing |
| `FedPostings.AchNames` | mock-fed-gateway/routers/ach.py:62-64 | an entry names the parties of its request, with the older field names and the default originator behind them |
| `FedPostings.AchReturnedExactly` | mock-fed-gateway/routers/ach.py:32-54 | which entries are returned and with which code: the one asked for, R03 for five zeros in the account, or the code of the last two digits of the amount |
| `FedPostings.AchSettledExactly` | mock-fed-gateway/routers/ach.py:66-139 | a single entry settles if and only if its receiver is valid and listed and nothing returns it; a returned one is logged with its code, any other one leaves no trace; the status of a refusal |
| `FedPostings.AchStatement` | mock-fed-gateway/routers/settlement.py:66-112 | a settled DEBIT entry adds to its originator's debits, a CREDIT entry to its receiver's credits, and every logged one to its originator's count |
| `FedPostings.BatchPosts` | mock-fed-gateway/routers/ach.py:178-214 | a batch logs its entries in order, each with its parties, amount, class, status and return code, and moves no money |
| `FedPostings.RoutingExactly` | mock-fed-gateway/routing_utils.py:7-55 | a routing number is valid if and only if it has nine digits, not all zero, whose sum weighted 3, 7, 1 is a multiple of ten |
| `FedPostings.RoutingErrorIsDetected` | mock-fed-gateway/routing_utils.py:36-55 | changing any one character of a valid routing number makes it invalid |
| `FedGateway.Gateway.SeedAllData` | mock-fed-gateway/seed_data.py:85-119 | seeding adds the missing institutions and accounts and counts them |
| `FedGateway.AddMissing` | mock-fed-gateway/seed_data.py:101-112 | the insert loop adds exactly the missing keys and keeps every existing entry |
| `FedGateway.SeedingIsIdempotent` | mock-fed-gateway/seed_data.py:85-114 | after seeding every institution has a master account, old balances are kept, and seeding again changes nothing |
| `FedLedger.BalanceAgreesWithHistory` | mock-fed-gateway/routers/settlement.py:66-114 | after any run, accepted or rejected, each master balance is its initial value plus adjustments plus the signed sum of settled wires, accepted instant transfers and single settled ACH entries between two accounts |
| `FedLedger.RunAgrees` | mock-fed-gateway/routers/settlement.py:66-114 | for all accounts of a seeded state at once, with the same accounts and limits, and with the sum of all balances |
| `FedLedger.OpeningMovesWithAchOnly` | mock-fed-gateway/routers/settlement.py:114-114 | the opening balance moves by exactly the adjustments and the single ACH entries |
| `FedLedger.OpeningUnchanged` | mock-fed-gateway/routers/settlement.py:82-114 | no run of Fedwire, FedNow, request and batch steps moves the opening balance |
| `FedLedger.BatchBooksNothing` | mock-fed-gateway/routers/ach.py:194-229 | batch entries count for nothing in any balance's history |
| `FedLedger.ReservesConserved` | mock-fed-gateway/routers/fedwire.py:46-81 | from a seeded state the sum of all balances changes only by adjustments and by accepted FedNow transfers whose debtor has no account |
| `FedLedger.FedwireRunWithinLimits` | mock-fed-gateway/routers/fedwire.py:51-81 | any run of Fedwire requests keeps each balance at or above minus its daylight limit |
| `FedLedger.FedNowWithinLimitsExactly` | mock-fed-gateway/routers/fednow.py:73-81 | an accepted FedNow transfer keeps the limits if and only if the debtor's headroom covers it, the debtor has no account, or debtor and creditor are the same institution |
| `FedLedger.FedNowBreaksALimit` | mock-fed-gateway/routers/fednow.py:73-81 | an accepted transfer of one cent more than the headroom breaks the limit |
| `BankService.Service.EmitTransactionalEvent` | backend/services/event_emitter.py:15-124 | one row, its outbox event and the activity event are appended together under a fresh id |
| `BankService.Service.GetAccountByUser` | backend/services/transfer_service.py:29-52 | the user's own account of that id, or the main account if none is named; another user's account is never returned |
| `BankService.Service.ExecuteInternalTransfer` | backend/services/account_service.py:93-129 | the checks in order, then both balances, both rows and the activity event, or no change; every balance still agrees with its rows, rows pair up and nothing is negative |
| `BankService.Service.HandleVendorPayment` | backend/services/transfer_service.py:159-189 | a vendor payment debits and records, cleared or failed, or changes nothing; every balance still agrees with its rows, rows pair up and nothing is negative; only the payer's accounts can have less afterwards |
| `BankService.Service.DebitForVendor` | backend/services/transfer_service.py:165-187 | the checks, the debit and its row |
| `BankService.Service.ExecuteP2PBalances` | backend/services/transfer_service.py:191-209 | 404 for a missing account and 400 for too little money, with no change; otherwise both balances move by the amount |
| `BankService.Service.ValidatePaymentRequest` | backend/services/transfer_service.py:147-157 | 404, 403 or 400 for a request that is missing, not addressed to the payer, closed or for more than the amount |
| `BankService.Service.EmitBothLegs` | backend/services/transfer_service.py:111-132 | two rows under one fresh parent, with their events |
| `BankService.Service.TransferToUser` | backend/services/transfer_service.py:104-138 | balances, both legs, and the payment request paid, or no change |
| `BankService.Service.RecordInternalTransfer` | backend/services/account_service.py:112-127 | two rows under one fresh parent and the activity event |
| `BankService.Service.ProcessP2PTransfer` | backend/services/transfer_service.py:71-138 | the whole transfer with recipient, vendor and payment-request branches; every balance still agrees with its rows, rows pair up and nothing is negative; only the payer's accounts can have less afterwards |
| `BankService.Service.AtomicTopUpBalance` | backend/services/deposit_service.py:47-64 | a top-up credits the main account and records it, and is dropped where there is none; the books stay in order, and nothing is negative unless the amount is |
| `BankService.Service.HandleSubscription` | backend/services/deposit_service.py:111-130 | the fee is taken and the subscription added, or nothing is if the balance is too low; the books stay in order |
| `BankService.Service.AdminCreditAccount` | backend/routers/admin.py:61-97 | an admin credit moves the main account's balance and records it, or answers 404; the books stay in order |
| `BankBooks.BalanceAgreesWithRows` | backend/services/transfer_service.py:109-132 | over any run of transfers, vendor payments, top-ups, credits, subscriptions and scheduled payments each balance moves by the sum of its new rows, plus the failed attempts recorded on it, less the fees of the subscriptions started for it |
| `BankBooks.RowsExplainBalanceExactly` | backend/services/deposit_service.py:115-126 | the rows of a run alone explain a balance if and only if the fees of the accepted subscriptions in it equal the amounts of its failed scheduled attempts |
| `BankBooks.RowsExplainOrdinaryRuns` | backend/services/transfer_service.py:109-132 | they do in every run without subscriptions and failed scheduled attempts |
| `BankBooks.SubscriptionIsNotInTheRows` | backend/services/deposit_service.py:115-126 | they do not where a subscription starts |
| `BankBooks.RefusedPaymentStillDebits` | backend/services/transfer_service.py:173-187 | the vendor's answer changes the recorded status and nothing else: a refused payment is debited all the same |
| `BankBooks.StepInOrder` | backend/services/transfer_service.py:71-138 | every operation keeps a bank in order: balances agree with the opening and the rows, rows pair up and are announced, nothing is negative |
| `BankBooks.NeverNegative` | backend/services/account_service.py:108-111 | no run makes a balance negative |
| `BankBooks.DoubleEntry` | backend/services/account_service.py:110-125 | over any run every transfer leg has exactly one counterpart under its parent and the two sum to zero, and every emitted row has exactly one outbox event |
| `BankBooks.PaidOnce` | backend/services/transfer_service.py:134-157 | a transfer that names a request takes an open one addressed to the payer at no less than its amount and marks exactly that one paid; after any run, paying it again is rejected without effect |
| `BankBooks.StaysPaid` | backend/services/transfer_service.py:153-154 | a paid request stays paid over any run |
| `Ownership.InternalExactly` | backend/services/account_service.py:98-114 | an internal transfer is accepted if and only if it is a positive amount between two different own accounts with the money for it, and then moves exactly that amount; otherwise it changes nothing |
| `Ownership.TransferPays` | backend/services/transfer_service.py:104-132 | an accepted transfer to a user takes its amount from the own account the payer named, or the payer's main account, brings it to the recipient's main account, changes no other balance, and records the two legs and their events |
| `Ownership.TransferAcceptedExactly` | backend/services/transfer_service.py:85-109 | it is accepted if and only if the amount is positive, the recipient is somebody else with a main account, a request it names can be paid by it, and the payer has such an account with the money |
| `Ownership.TransferAnswers` | backend/services/transfer_service.py:85-109 | why a transfer to a user is refused, check by check |
| `Ownership.VendorPays` | backend/services/transfer_service.py:165-187 | an accepted vendor payment takes its amount from such an account and brings it nowhere, with one row that says cleared or failed |
| `Ownership.StrangersAccountIsRefused` | backend/services/transfer_service.py:36-51 | naming an account that is not the payer's own is refused and changes nothing |
| `Ownership.RequestErrorExactly` | backend/services/transfer_service.py:147-157 | which requests cannot be paid, and with which answer |
| `Ownership.CreditPays` | backend/routers/admin.py:65-97 | a top-up or credit brings its amount to the named user's main account and nowhere else, with its row and events |
| `Ownership.CreditRefusedExactly` | backend/routers/admin.py:61-69 | a credit is refused if and only if it is not positive or the recipient or the main account is missing |
| `Ownership.SubscriptionPays` | backend/services/deposit_service.py:111-130 | a subscription takes 49.00 from the user's main account, or is refused where that has less |
| `Ownership.OnlyTheAskerPays` | backend/services/transfer_service.py:36-45 | no operation lowers a balance of anybody but the user who asked for it |
| `Ownership.NobodyElsePays` | backend/services/transfer_service.py:36-45 | so over any run a balance falls only if its owner asked for an operation of that run |
| `RowLocks.ReadsDecide` | backend/services/account_service.py:102-111 | a transaction that has read its locked rows decides and writes as it would on the whole table |
| `RowLocks.AloneIsTheLedger` | backend/services/account_service.py:98-110 | alone, each of the three transactions does to the balances what the ledger's operation does, with the same answer |
| `RowLocks.Serializable` | backend/services/account_service.py:101-128 | whatever order each transfer locks its rows in, every interleaving of internal transfers, top-ups and vendor payments, with crashes, ends with the balances of the serial run in commit order, and each one was answered as in that run |
| `Deadlock.DeadlockExactly` | backend/services/account_service.py:101-102 | some interleaving ends in a deadlock if and only if the transfers' lock orders form a ring, each one's second row being the next one's first |
| `Deadlock.RingDeadlocks` | backend/services/account_service.py:101-102 | the deadlocking run: each transaction of a ring takes its first row, and the others run until they end or are blocked |
| `Deadlock.DeadlockHasRing` | backend/services/account_service.py:101-102 | following who blocks whom in a stuck state leads round a ring |
| `Deadlock.OppositeTransfersDeadlock` | backend/services/account_service.py:101-102 | two opposite transfers between the same accounts, each locking its source first, can deadlock |
| `Deadlock.HolderWaitsHigher` | backend/services/account_service.py:101-102 | if every transfer locked its lesser id first, who holds a row and still waits would wait for a greater id |
| `Deadlock.NoDeadlock` | backend/services/account_service.py:101-102 | in that order, while a transaction is live, some transaction can lock or commit |
| `Deadlock.AllCanFinish` | backend/services/account_service.py:101-128 | in that order every reachable state has a crash-free continuation that finishes every live transaction |
| `Deadlock.AscendingHasNoRing` | backend/services/account_service.py:101-102 | ascending lock orders form no ring |
| `Idempotency.Endpoint.CheckIdempotency` | backend/idempotency.py:21-42 | a completed key gives its stored body, a new key is added as pending, a pending one lets the caller go on |
| `Idempotency.Endpoint.CompleteIdempotency` | backend/idempotency.py:45-60 | an existing key is completed with the body |
| `Idempotency.Endpoint.FirstPhase` | backend/routers/accounts.py:151-160 | everything up to the first commit, with every early reply |
| `Idempotency.Endpoint.SecondPhase` | backend/routers/accounts.py:170-172 | the key is completed in a commit of its own |
| `Idempotency.Endpoint.InternalTransfer` | backend/routers/accounts.py:134-173 | the endpoint with its two commits, for a crash before, between and after them |
| `Idempotency.CompletedReplays` | backend/idempotency.py:34-39 | once a key is completed every request under it gets the stored body and changes nothing |
| `Idempotency.AnswerTellsTheBalances` | backend/routers/accounts.py:161-172 | the answer to an applied transfer tells the sender's and the receiver's balance after it, and is what the key keeps |
| `Idempotency.EffectsCounted` | backend/routers/accounts.py:151-173 | over serial requests sharing a key the transfers applied number the crashes between the commits plus one if the key became completed |
| `Idempotency.RetriesMoveMoney` | backend/routers/accounts.py:151-173 | and the balances move by exactly that many times the amount, no others |
| `Idempotency.Endpoint.ApplyInSession` | backend/idempotency.py:21-60 | a keyed operation in its session: answered from a completed key, refused or dropped without a trace, or applied with the key added as pending or, if it was there before, completed |
| `Idempotency.Endpoint.Deliver` | backend/services/deposit_service.py:38-71 | the whole keyed handler with its one commit, for a crash before it and after it |
| `SingleCommit.LedgerOfApplied` | backend/services/deposit_service.py:43-71 | over any deliveries under one key the ledger is that of the operations applied, one after the other |
| `SingleCommit.KeyAfterApplied` | backend/idempotency.py:41-60 | an applied delivery leaves a new key pending for its user, and completes a pending one with the answer that names the new rows |
| `SingleCommit.AppliedExactly` | backend/idempotency.py:42-60 | a key lets through the first two deliveries that reach their commit, one if it was pending, and no more |
| `SingleCommit.AtMostOnceExactly` | backend/services/deposit_service.py:66-71 | a new key applies its operation at most once if and only if at most one delivery reaches its commit |
| `SingleCommit.CreditedAtMostTwice` | backend/routers/admin.py:56-103 | a top-up or credit delivered any number of times, with crashes, adds its amount once if one delivery survives and twice if more do, and moves no other balance |
| `SingleCommit.TransferAppliedTwice` | backend/routers/transfers.py:125-146 | a transfer between users asked for twice under one key moves the money twice |
| `SingleCommit.RequestStopsRetries` | backend/services/transfer_service.py:153-154 | unless it pays a request: then at most one is applied |
| `Dates.OrdinalDetermines` | backend/date_utils.py:5-7 | no two dates share a day on the time line |
| `Dates.OrdinalIsTheDayCount` | backend/date_utils.py:5-7 | the ordinal of a date is the Gregorian day count: 365 days a year, a leap day each fourth year but not each hundredth but each four hundredth, the lengths of the months before, and the day |
| `Dates.FirstOf2000WasASaturday` | backend/date_utils.py:9-18 | the names of the days are the usual ones |
| `Dates.AddDaysInstant` | backend/date_utils.py:34-39 | adding days moves the instant by exactly that many days and keeps the time of day |
| `Dates.OneMonthOn` | backend/date_utils.py:5-7 | one month on is the next month, on the same day or its last one |
| `Dates.IteratedMonths` | backend/date_utils.py:5-7 | after n months the month index has grown by n and the day is the least of the start day and the lengths of the months visited |
| `Dates.IteratedMonthsIncrease` | backend/date_utils.py:5-7 | the dates strictly increase, by at least 28 days a month |
| `Dates.NextWeekdayIsFirst` | backend/date_utils.py:9-18 | the answer has the named weekday, lies one to seven days later, and no day in between has that name |
| `Dates.SpecificDateIsNextMonthExactly` | backend/date_utils.py:20-27 | the answer lies in the next month if and only if the day number is at least 1, and is that day, the 28th at most |
| `Dates.NextOccurrenceExactly` | backend/date_utils.py:20-27 | for days 1 to 28 the answer is the next occurrence if and only if the day has already come this month |
| `Dates.NextRunIsLater` | backend/date_utils.py:29-50 | without an interval exactly the four recurring frequencies have a next run, at least one period later |
| `Dates.NextRunExactly` | backend/date_utils.py:29-50 | the next run is exactly 1, 7 or 14 days on, or the same day of the next month or its last one, and there is none otherwise |
| `Dates.NextRunWithInterval` | backend/date_utils.py:44-50 | an interval gives the two specific frequencies their named weekday within a week or their day of the next month, the 28th at most, and changes nothing for the others |
| `ScheduleWorker.Worker.CreateScheduledPayment` | backend/routers/transfers.py:253-276 | a new payment is active with the calendar's next run and nothing made; payments keep their bounds and the bank's books stay in order |
| `ScheduleWorker.Worker.CancelScheduledPayment` | backend/routers/transfers.py:286-308 | only the owner's unfinished payment is cancelled, and its next run cleared; payments keep their bounds and the bank's books stay in order |
| `ScheduleWorker.Worker.UpdateSchedule` | backend/scheduled_payments_worker.py:122-131 | a payment is counted and then completed or given its next run; comparing a missing next run with an end date raises |
| `ScheduleWorker.Worker.HandleFail` | backend/scheduled_payments_worker.py:133-144 | a failure is recorded and retried a day later, the third one ends the schedule |
| `ScheduleWorker.Worker.PayVendor` | backend/scheduled_payments_worker.py:77-87 | a scheduled vendor payment is one ledger debit with its row and events |
| `ScheduleWorker.Worker.PayUser` | backend/scheduled_payments_worker.py:103-121 | a scheduled transfer is two legs under one parent |
| `ScheduleWorker.Worker.ProcessSinglePayment` | backend/scheduled_payments_worker.py:55-123 | every branch for missing users, accounts, vendors and funds; a payment that counts as made has gone from the payer's account to the recipient's main account, or to the vendor |
| `ScheduleWorker.Worker.ProcessAndCommit` | backend/scheduled_payments_worker.py:46-52 | an attempt that raises is rolled back and changes nothing; payments keep their bounds and the bank's books stay in order |
| `ScheduleWorker.Worker.ProcessNext` | backend/scheduled_payments_worker.py:46-52 | one turn of the poll attempts its payment and touches no other |
| `ScheduleWorker.Worker.SelectDue` | backend/scheduled_payments_worker.py:44-45 | exactly the active and retrying payments whose next run has come |
| `ScheduleWorker.Worker.ProcessScheduledPayments` | backend/scheduled_payments_worker.py:40-53 | a poll is the run that processes exactly the payments due at its start, each once; payments keep their bounds and the bank's books stay in order |
| `ScheduleBooks.Accounting` | backend/scheduled_payments_worker.py:55-144 | over any run the money debited for a payment is its amount times payments made, recorded failures are the retry count of at most 3 with 3 only in Failed, a target bounds the payments, and the payment has a next run exactly while it is unfinished and recurring |
| `ScheduleBooks.NothingAfterTheEnd` | backend/scheduled_payments_worker.py:44-45 | a completed, failed or cancelled payment never changes and never moves money again |
| `ScheduleBooks.OnlyRecurringPay` | backend/scheduled_payments_worker.py:125-129 | a payment that is not Daily, Weekly, Bi-weekly or Monthly never moves money |
| `ScheduleEffects.DuePaymentExactly` | backend/scheduled_payments_worker.py:55-123 | a due payment is paid if and only if its payer exists and has an account with the money and there is a user with a main account or a vendor to pay; it counts as failed if only the money is missing; otherwise it is given up and nothing else changes |
| `ScheduleEffects.PaidMovesTheMoney` | backend/scheduled_payments_worker.py:77-121 | whenever a step raises the payments made, the payer's funding account has given the amount, the recipient's main account has got it if the recipient is a user, no other balance has moved, and the rows say so |
| `ScheduleEffects.MissedIsRecorded` | backend/scheduled_payments_worker.py:133-142 | whenever a step raises the failed attempts, one failed row stands on the payer's account and no balance has moved |
| `ScheduleEffects.UnpaidMovesNothing` | backend/scheduled_payments_worker.py:55-102 | no other step of the scheduler moves any balance |
| `ScheduleEffects.RetriedADayLater` | backend/scheduled_payments_worker.py:143-144 | a failed attempt is tried again exactly a day after it, and the third one ends the schedule |
| `ScheduleEffects.PaymentsArrive` | backend/scheduled_payments_worker.py:99-123 | over any run the attempts at a payment take amount times payments made from the payer's account, bring the same to the main account of a recipient who is a user, and change no other balance |
| `ScheduleEffects.OnlyThePayerPays` | backend/scheduled_payments_worker.py:61-64 | a step lowers a balance only for a payment of its owner or an operation its owner asked for |
| `ScheduleEffects.NobodyElsePays` | backend/scheduled_payments_worker.py:61-64 | so over any run a balance falls only if its owner has a scheduled payment or asked the bank for an operation |
| `ScheduleEffects.CompletedExactly` | backend/scheduled_payments_worker.py:125-131 | a payment made completes its schedule if and only if the target is reached or the next run would lie past the end date; otherwise it waits for that run |
| `ScheduleEffects.CompletedHasRunItsCourse` | backend/scheduled_payments_worker.py:125-131 | over any run a schedule is completed only with its target reached or by its end date, and a target of n means exactly n payments |
| `ScheduleEffects.CreatedExactly` | backend/routers/transfers.py:253-276 | a positive amount creates one active payment with the terms of the request and nothing made or failed, any other one nothing |
| `ScheduleEffects.CancelledExactly` | backend/routers/transfers.py:286-308 | only the owner cancels, only an active or retrying payment, and only its status and next run change |
| `ScheduleBooks.PaidPastEndExactly` | backend/scheduled_payments_worker.py:44-45 | a payment is made past its end date if and only if it is due, payable and polled past that date |
| `ScheduleBooks.PastEndCompletes` | backend/scheduled_payments_worker.py:125-131 | a payment made past the end date completes the schedule |
| `ScheduleBooks.OnlyLastPastEnd` | backend/scheduled_payments_worker.py:122-144 | over any run, of the times a schedule is paid only the last can lie past its end date, and then the schedule is completed |
| `ScheduleBooks.FirstPaymentIgnoresEndDate` | backend/routers/transfers.py:253-271 | a payment whose end date precedes its first run is still paid once, when it is polled at that run |
| `ScheduleBooks.RetryIgnoresEndDate` | backend/scheduled_payments_worker.py:143-144 | a failed attempt is tried again a day later, and paid, even past the end date |
| `ScheduleBooks.RefusedPaymentCounts` | backend/scheduled_payments_worker.py:77-90 | a scheduled payment that the vendor refuses is debited, recorded as failed and counted as made, like one it accepts |
| `ScheduleBooks.TermsFixed` | backend/scheduled_payments_worker.py:122-144 | no run changes the terms of a payment or removes one |
| `ScheduleBooks.Spacing` | backend/scheduled_payments_worker.py:125-144 | two consecutive payments at poll times a and b have b not before the calendar's next run after a, with any retries in between |
| `ScheduleBooks.Span` | backend/date_utils.py:34-42 | k payments span at least k - 1 periods, 7 (k - 1) days for Weekly |
| `ScheduleBooks.ScheduleIsLedgerRun` | backend/scheduled_payments_worker.py:77-121 | the scheduler touches the bank only through ledger operations |
| `ScheduleBooks.SchedulerKeepsBooks` | backend/scheduled_payments_worker.py:99-122 | so with scheduled payments, too, no balance goes negative and every balance agrees with its rows |
| `ScheduleBooks.StepInOrder` | backend/scheduled_payments_worker.py:55-144 | every step of the scheduler and the bank together keeps the terms and bounds of every payment and the books in order |
| `Luhn.ChecksumIsTotal` | backend/schemas/deposit.py:8-11 | the two slices together visit every digit once, every second one from the right doubled |
| `Luhn.OneErrorIsDetected` | backend/schemas/deposit.py:5-14 | changing any one character of an accepted number makes it rejected |
| `Luhn.TranspositionExactly` | backend/schemas/deposit.py:5-14 | swapping two neighbours goes unnoticed if and only if they are equal or 0 and 9 |
| `Luhn.JumpTranspositionIsNotDetected` | backend/schemas/deposit.py:8-12 | swapping two digits with one between them is never noticed |
| `Luhn.OneCheckDigit` | backend/schemas/deposit.py:5-14 | every digit string has exactly one check digit that makes it accepted |
| `Cents.CentsRoundTrip` | backend/money_utils.py:6-86 | for every number of cents each of the two parsers reads back what each of the two printers prints |
| `Cents.ParsersReadTheNumber` | backend/money_utils.py:73-86 | both parsers read a sign, dollars, a point and decimal places as 100 times the dollars plus the first two places, a missing place being 0 and later ones cut off; dollars missing behind a minus are an error |
| `Cents.ParsersReadWholeDollars` | backend/money_utils.py:73-86 | both read a text without a point as whole dollars |
| `Cents.CommasAreIgnored` | frontend/lib/transactionUtils.ts:45-45 | commas make no difference to either |
| `Cents.NothingIsShownAsZero` | frontend/lib/transactionUtils.ts:89-99 | no amount is shown like an amount of zero |
| `Cents.SameTextButCommas` | frontend/lib/transactionUtils.ts:69-83 | the two printers agree up to the commas |
| `Cents.CommasEveryThreeDigits` | frontend/lib/transactionUtils.ts:78-78 | counting from the right, exactly every fourth character of the dollars is a comma |
| `Cents.PrintingIsInjective` | frontend/lib/transactionUtils.ts:89-99 | different amounts print differently, with and without the symbol |
| `Cents.WithoutSymbol` | frontend/lib/transactionUtils.ts:94-98 | the formatted amount without its symbol is the plain text, the sign in front included |
| `Cents.ParsersExactly` | backend/money_utils.py:67-86 | on every text without underscores and control characters that only Python strips, the frontend gives what the backend gives wherever the backend accepts; they differ if and only if the frontend accepts while something other than trailing space follows the digits of the dollars or the cents |
| `Numerals.IntReadersExactly` | frontend/lib/transactionUtils.ts:60-60 | on such a text Python's `int` is JavaScript's `parseInt` where that reads to the end, trailing space aside, and an error elsewhere |
| `Cents.ParsersAgree` | frontend/lib/transactionUtils.ts:41-62 | on digits, commas and points behind an optional minus the two parsers agree, errors included |
| `Cents.ParsersDisagree` | frontend/lib/transactionUtils.ts:60-60 | an input on which they differ |
| `AccountNumber.FormatAccountNumber` | frontend/lib/routingUtils.ts:436-453 | the loop ends, short numbers come out as plain digits, longer ones as groups of four after a first group of one to four |
| `AccountNumber.FormattingUndone` | frontend/lib/routingUtils.ts:428-430 | stripping a formatted number gives the digits of the input back |
| `AccountNumber.FormattedDetermined` | frontend/lib/routingUtils.ts:436-453 | there is one such text, and two inputs share it if and only if they have the same digits |
| `AccountNumber.DashesEveryFour` | frontend/lib/routingUtils.ts:440-452 | in a longer number the dashes stand in exactly every fifth place from the right |

## Left out

- The HTTP layer, Kafka, ClickHouse and database drivers, captcha, tokens, password hashing, logging, heartbeat files and the dead-letter topic: only their outcomes appear.
- The key and partition of a Kafka message: a message may go to any partition of its topic; consumer group rebalances are not modelled.
- A second clock reading inside one pass of the sync checker: settlement and window use one reading.
- The backoff of the outbox loop and the intervals between polls: times are free.
- P2P transfers, admin credits and the scheduled worker as concurrent transactions: each is one atomic step, since P2P reads before it locks and the other two take no lock.
- ScheduleWorker.Worker.CreateScheduledPayment: the idempotency key around it is not modelled; it has the two commits that `Idempotency` treats for internal transfers, and guards a schedule instead of a transfer.
- Idempotency.Endpoint.Deliver: the replies of the keyed handlers are not modelled, only what they store; deliveries under one key come one after the other.
- Idempotency keys of payments to vendors and of payment intents, whose handlers commit in between.
- Cents.ParsersExactly: texts with underscores or the characters from 1C to 1F are left out, because Python takes the former for digit separators and only Python takes the latter for space.
- LedgerToWarehouse.EveryRowArrives: merchant and creation time are no part of the ledger's rows, so any will do.
- The state of objects held by the worker's session across commits: each payment of a poll is read afresh.
- `/transfer`, wires, FedNow and ACH endpoints of the bank: they record rows and never move a balance.
- Reserved amounts, sub-account creation, counter-offers on payment requests, subscription cancellation and vendor catalogues.
- ACH amounts given as floating point: amounts arrive in cents.
- Integer widths and the year 9999: integers are unbounded, and a date before year 1 is a missing answer instead of an overflow error.
- Digits and white space outside ASCII, and numbers of cents beyond the exact range of a JavaScript number.
- Display helpers of routing numbers and districts in the frontend, user interface code, and the second-version stubs.
