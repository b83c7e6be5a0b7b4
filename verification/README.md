# HFT order pipeline and balance ledger — a Dafny model

This project models the deterministic core of the hft-app backend: the
serverless handlers that turn trading signals into orders, execute orders
against a per-user balance ledger, record executed orders in a history
table, and the HTTP endpoints that create, extend and read the ledger and
read the history.

State is modelled as immutable maps:

- the balance ledger, `BalanceLedger.Ledger`, maps a `(userId, activeSymbol)`
  key to a row `Row(availableBalance, totalStocks)`; the "CASH" row carries
  the user's cash;
- the history table, `HistoryStore.History`, maps a `(userId, timestamp)` key
  to the order's action, symbol and quantity.

Each handler is a pure function from the state and its input to the new
state and its answer. For a batch handler the answer is the list of failed
item ids; for an HTTP endpoint it is the response. Every effect the code
does not compute itself is an input:

- the outcome of `JSON.parse` or of the stream record decoding, as an `Option`;
- the success or failure of every DynamoDB get, put and query and every SQS send, as a `bool`;
- the two `randomInt` predictions;
- the `Date.now()` and `toISOString()` readings.

Each batch handler is given both as a recursive fold (`ProcessBatch`,
`ProcessStream`) and as the `for` loop of the handler (`Handler`). Each loop
is proved to compute its fold.

Modules, one per source file plus shared ones:

| module | file | models |
|---|---|---|
| `Base` | base.dfy | option type, subsequence relation, HTTP request/response shapes, JavaScript truthiness |
| `BalanceLedger` | ledger.dfy | the user-balance table |
| `HistoryStore` | history.dfy | the operations-history table and the history record |
| `SignalGenerator` | signals.dfy | src/hft-app/HftSystem.ts |
| `BrokerExecution` | broker.dfy | src/execute-operations/lambdas/ProcessOperationWithBroker.ts |
| `CreateInitialBalance` | create_balance.dfy | src/balance-management/lambdas/CreateInitialBalance.ts |
| `AddHoldings` | add_holdings.dfy | src/balance-management/lambdas/AddHoldings.ts |
| `GetCurrentBalance` | get_balance.dfy | src/balance-management/lambdas/GetCurrentBalance.ts |
| `ProcessHistoryOperation` | history_sink.dfy | src/operations-history/lambdas/ProcessHistoryOperation.ts |
| `GetOperationsHistoryByUser` | history_query.dfy | src/operations-history/lambdas/GetOperationsHistoryByUser.ts |
| `Pipeline` | pipeline.dfy | how the handlers compose |

Points where the code's behaviour is easy to misread, and what the model does:

- **Missing row on buy.** A buy whose (userId, activeSymbol) row does not
  exist fails the item with "User not found"; it does not start from 0. The
  model fails it too (`UserNotFound`).
- **Mocked venue.** The venue call is a local mock that always answers
  "success" and whose answer is discarded, so it can neither fail an item
  nor change the ledger. The model has no venue step.
- **History puts overwrite.** The sink's put is unconditional, so a second
  record with the same (userId, timestamp) replaces the first. The model
  overwrites too.
- **Broker write drops other attributes.** The broker's write replaces the
  whole row with `{userId, activeSymbol, totalStocks}`. Any
  `availableBalance` on that row is dropped, which matters for an order on
  the symbol "CASH". The model writes `Row(None, Some(q))`.
- **Key typo.** The broker's read names the sort key `aciveSymbol`, a typo.
  The model reads the intended `(userId, activeSymbol)` row.
- **Stock count type.** The broker writes `totalStocks` as a string but reads
  it as a number. The model treats it as an integer throughout.
- **Unchecked market data.** The signal handler destructures `userId` and
  `name` without checking them. A record missing either field is held
  without error on a 0 consensus; otherwise the order is sent with the field
  omitted from its JSON body, and a missing userId also leaves the group id
  unset and renders as "undefined" in the deduplication id.

## Model

| member | source | states |
|---|---|---|
| BrokerExecution.Execute | src/execute-operations/lambdas/ProcessOperationWithBroker.ts:34-116 | an order executes exactly when it parses, the read succeeds, its (userId, activeSymbol) row exists, the action is buy or sell, a sell finds at least 10 stocks, and both the write and the enqueue succeed; it fails with EnqueueFailed exactly when everything up to the write succeeded but the enqueue did not, and that write is kept; a written row holds the old quantity (absent counts as 0) plus 10 for buy or minus 10 for sell, and no other row changes or appears; every earlier failure (unparseable, read failed, missing row, invalid action, not enough stocks, write failed) leaves the ledger unchanged and is reported as that error; an executed order yields one history record with quantity 10 and the clock reading; non-negative quantities stay non-negative |
| BrokerExecution.ProcessBatch | src/execute-operations/lambdas/ProcessOperationWithBroker.ts:29-126 | the failures and the sent history records together number exactly the records of the batch; the failure list is a subsequence of the batch's message ids in batch order; every sent record trades 10 with buy or sell; the ledger's keys never change, rows no record addresses are untouched, and non-negativity is preserved across the whole batch (which records fail or send is stated by FailedIsReported) |
| BrokerExecution.FailedIsReported | src/execute-operations/lambdas/ProcessOperationWithBroker.ts:32-121 | each record is processed against the ledger the records before it leave; if it does not execute there, its message id is among the reported failures, and if it does, its history record is among the sent ones |
| BrokerExecution.Handler | src/execute-operations/lambdas/ProcessOperationWithBroker.ts:29-126 | the handler's loop over the records computes exactly the sequential fold, so its batchItemFailures list is a subsequence of the message ids |
| BrokerExecution.ProcessBatchSplit | src/execute-operations/lambdas/ProcessOperationWithBroker.ts:32-121 | processing a batch equals processing any split of it one part after the other from the intermediate ledger, with failures and sent records concatenated: records act strictly in order on a shared ledger |
| BrokerExecution.BuyThenSellRestores | src/execute-operations/lambdas/ProcessOperationWithBroker.ts:59-102 | on any row with a non-negative stock count, a buy followed by a sell of the same row leaves that row holding the same count and no availableBalance, every other row unchanged; so a row the broker wrote (no availableBalance, a count q >= 0) is restored, while a CASH row loses its balance |
| BrokerExecution.OrderMatters | src/execute-operations/lambdas/ProcessOperationWithBroker.ts:79-82 | for any row holding between 0 and 9 stocks, buy-then-sell of that row has no failure while sell-then-buy fails the sell: the per-user order of delivery decides the outcome |
| SignalGenerator.Consensus | src/hft-app/HftSystem.ts:65-78 | the combined prediction is non-zero exactly when both predictions agree on a non-zero value, and then equals it |
| SignalGenerator.ActionFor | src/hft-app/HftSystem.ts:89-95 | 1 maps to "buy", -1 to "sell", 0 to "hold", each in both directions |
| SignalGenerator.HandleRecord | src/hft-app/HftSystem.ts:22-110 | a record fails exactly when it does not parse or its send fails; it sends nothing exactly when it parses and the consensus is 0, whatever fields it lacks; a sent order has a consensus buy or sell (never "hold"), the record's userId and name as userId and activeSymbol (absent when the record lacks them), group id = userId, and deduplication id = userId (or "undefined") + "-" + the millisecond clock |
| SignalGenerator.ProcessStream | src/hft-app/HftSystem.ts:15-62 | the failures are exactly the sequence numbers of the failing records and the sent orders exactly the orders of the sending records, both in batch order; failures are a subsequence of the records' sequence numbers; at most one outcome per record; every sent order is buy or sell and grouped by its user |
| SignalGenerator.SentComesFromRecord | src/hft-app/HftSystem.ts:22-57 | every order the batch sends is the order some record of the batch produced |
| SignalGenerator.FailedIsReported | src/hft-app/HftSystem.ts:51-54 | a record that fails has its sequence number among the reported failures |
| SignalGenerator.SentIsReported | src/hft-app/HftSystem.ts:46-50 | a record that sends has its order among the orders the batch sends |
| SignalGenerator.Handler | src/hft-app/HftSystem.ts:15-62 | the handler's loop computes exactly the sequential fold over the stream records |
| SignalGenerator.HoldIsSilent | src/hft-app/HftSystem.ts:47-50 | a decoded record whose predictions disagree or agree on 0 changes nothing: no order and no failure |
| CreateInitialBalance.Handler | src/balance-management/lambdas/CreateInitialBalance.ts:12-105 | empty body gives 400 "Body cannot be empty"; missing userId or falsy initialBalance (0 included) gives 400; an unparseable body or failing write gives HTTP 400 with body status 500; an existing CASH row gives 409 "User already exists" with the ledger unchanged; 201 exactly when the request is valid, the write works and no CASH row exists, and then only the (userId, "CASH") row is added, holding the initial balance and 0 stocks; no write on any non-201 answer |
| CreateInitialBalance.SecondCreateKeepsBalance | src/balance-management/lambdas/CreateInitialBalance.ts:48-90 | a second create for the same user answers 409 and the balance set by the first is kept |
| AddHoldings.Handler | src/balance-management/lambdas/AddHoldings.ts:13-106 | empty body gives 400; missing userId or activeSymbol, or zero/missing totalStocks gives 400; unparseable body or failing write gives HTTP 400 with body status 500; an existing row gives 409 "Symbol already exists" with the ledger unchanged; 201 exactly when valid, the write works and the row is absent, and then only that row is added with the given stocks; no write on any non-201 answer |
| AddHoldings.NegativeHoldingAccepted | src/balance-management/lambdas/AddHoldings.ts:34-47 | the validation accepts totalStocks = -5: a non-negative ledger answers 201 and ends with a negative quantity |
| AddHoldings.HandlerChecked | src/balance-management/lambdas/AddHoldings.ts:34-74 | with the intended positive-count check a negative count is refused with 400, every other request behaves as the endpoint does, and non-negative quantities stay non-negative |
| GetCurrentBalance.SplitRows | src/balance-management/lambdas/GetCurrentBalance.ts:67-79 | the loop over the user's rows sets the cash slot exactly when a CASH row exists, takes it from that row, and puts every other symbol, and only those, into the holdings with its stock count; CASH is never a holding |
| GetCurrentBalance.Handler | src/balance-management/lambdas/GetCurrentBalance.ts:15-128 | a missing or empty userId gives 400; a failing query gives HTTP 400 with body status 500; no rows for the user gives 404; rows without a CASH row gives 404 "User hasn`t balance"; 200 exactly when the user's CASH row exists, with that row's availableBalance and as holdings exactly the user's other symbols with their stock counts; the ledger is not an output (read-only) |
| BalanceLedger.UserRows | src/balance-management/lambdas/GetCurrentBalance.ts:37-47 | the query on partition key userId returns exactly the rows whose userId matches, keyed by symbol |
| ProcessHistoryOperation.ProcessBatch | src/operations-history/lambdas/ProcessHistoryOperation.ts:8-39 | entries are never removed; a key holds the entry of the last stored message with that key, and any key no message writes keeps its old entry; the failures are exactly the ids of the messages that do not parse or whose put fails, in batch order, and so a subsequence of the message ids |
| ProcessHistoryOperation.Handler | src/operations-history/lambdas/ProcessHistoryOperation.ts:8-39 | the handler's loop computes exactly the sequential fold and never removes a key |
| ProcessHistoryOperation.StoredIsPresent | src/operations-history/lambdas/ProcessHistoryOperation.ts:16-27 | every message that parsed and whose put succeeded leaves an entry at its (userId, timestamp) |
| ProcessHistoryOperation.FailedIsReported | src/operations-history/lambdas/ProcessHistoryOperation.ts:28-33 | a message that does not parse or whose put fails has its id among the reported failures |
| ProcessHistoryOperation.RedeliveryIdempotent | src/operations-history/lambdas/ProcessHistoryOperation.ts:16-27 | processing the same batch again with the same outcomes leaves the store unchanged (unconditional put is idempotent under redelivery) |
| GetOperationsHistoryByUser.RecordsOf | src/operations-history/lambdas/GetOperationsHistoryByUser.ts:23-33 | the query returns exactly the stored records whose userId matches |
| GetOperationsHistoryByUser.Handler | src/operations-history/lambdas/GetOperationsHistoryByUser.ts:17-53 | 200 with code 200 and exactly the user's records when the userId is given and the query works; otherwise 500 "Something went wrong"; read-only |
| Pipeline.SignalledOrderExecutes | src/execute-operations/lambdas/ProcessOperationWithBroker.ts:34-82 | an order sent by the signal handler is never refused as an invalid action; one that lacks userId or activeSymbol fails as unusable; with both fields, an existing row and working calls a buy always executes and a sell executes exactly when the row holds at least 10 |
| Pipeline.ExecutedOrderIsRetrievable | src/execute-operations/lambdas/ProcessOperationWithBroker.ts:105-116 | the history record of an executed order, once stored by the sink, is returned by the history query for its user, with quantity 10 |
| Pipeline.CreatedBalanceIsReported | src/balance-management/lambdas/GetCurrentBalance.ts:67-111 | after the create endpoint answers 201 for a user with no CASH row, the balance endpoint answers 200 with the created amount and the user's other rows as holdings, and no holdings for a user who had no rows |
| Pipeline.QuantityNeverNegative | src/execute-operations/lambdas/ProcessOperationWithBroker.ts:79-102 | any sequence of create-balance, add-holdings (with the positive-count check) and broker batches keeps every quantity non-negative |

## Findings

| source | as written | input that shows it | evidently intended | confidence | as-written member | corrected member |
|---|---|---|---|---|---|---|
| src/balance-management/lambdas/AddHoldings.ts:34 | `!payload.totalStocks` rejects only a missing or zero count | totalStocks = -5 on an absent (userId, activeSymbol) row answers 201 and stores -5 stocks | reject a non-positive count, so quantities stay non-negative as the broker's sell guard assumes | medium, not executed | AddHoldings.NegativeHoldingAccepted | AddHoldings.HandlerChecked |

## Left out

- Infrastructure: deployment code, environment configuration, queue flags, batch sizes and consumer concurrency. Each handler invocation is modelled as sequential processing of one batch, in order.
- Queue semantics: FIFO per-group ordering, the deduplication window and visibility-timeout redelivery belong to the queue service. The deduplication id is only a message field, and redelivery appears only as processing the same input again.
- Marshalling: DynamoDB marshalling, JSON wire formats and base64 decoding are abstracted. Each parse or decode is an `Option` input. In the broker, a payload without userId or activeSymbol fails when the read key is marshalled, and one without action fails at the action check; the model reports all of them as `Unparseable`, with the ledger unchanged either way. In the history sink a payload missing a key field fails the put, which the model reports as a parse failure.
- SignalGenerator.HandleRecord: whether the queue accepts an order sent without a group id (a record lacking userId) is part of the send-outcome input, not decided by the model.
- Number types: JavaScript numbers are modelled as integers. Fractional amounts and NaN are not modelled.
- Row timestamps: the `lastOperationTimestamp` attribute that the create and add endpoints write is not modelled, because no handler in the model reads it.
- Logging: `console.log` and `console.error` calls are not modelled.
- Mocked venue: `mockInteractiveBrokersApiResponse` is not modelled. It always answers "success" with a random order id and the handler ignores the answer.
- Unread fields: the price, 24h variation and market-cap fields of a market-data record are not modelled, because the signal handler never reads them.
- Real-time fan-out: SendHistoryOperationRealTime.ts is not part of this model. Its publish call is commented out, and its records run concurrently through a shared variable.
- Other code: the auth handlers, the market-data fetchers and the AppSync client are not part of this model.
- HTTP shape: headers and `isBase64Encoded` of the HTTP responses are not modelled.
- GetOperationsHistoryByUser.Handler: returns the user's records as a set. The ascending sort-key order and the 1 MB page limit of the query are not modelled.
- GetCurrentBalance.Handler: holdings values are kept as optional stock counts. JSON serialisation, which omits an absent value, is not modelled.
