# Order fulfilment: ledger, confirm guard and saga

A Dafny model of the order-fulfilment workflow of a small three-service
system (customers, orders, and a serverless orchestrator). The model has
four pieces:

- **The stock and order ledger** of the orders service (`Ledger`, ledger.dfy).
  - The database is an immutable `Store`: products, orders, order item rows and the auto-increment counter.
  - `CreateOrder` and `CancelOrder` are transactions. Each returns `Ok` with the committed store, or `Err` with no store at all, which is the rollback.
  - The customer lookup is an outcome parameter: found, or a failed request carrying the HTTP client's message.
- **The order routes** (`Routes`, routes.dfy).
  - `CreateRoute` maps the create transaction's error messages to statuses with a real substring test.
  - `ConfirmRoute` is the confirm state machine. It runs behind the durable idempotency guard (`Idempotency`, idempotency.dfy), and every response after the check is saved under the caller's key.
  - `CancelRoute` maps the cancel transaction to 200/404.
  - Reply bodies are the `Responses.Body` datatype.
- **The saga orchestrator** (`Saga`, saga.dfy). It runs validate, cache lookup, create, confirm, then compensate with a cancel when the confirm fails.
  - Each remote call's outcome is a parameter.
  - A run returns the response, the list of calls made, the cache afterwards and the logged compensation error.
- **The saga dedup cache** (`SagaCache`, saga_cache.dfy).
  - The key is JSON text `{"customer_id":…,"items":[{"product_id":…,"qty":…},…]}`, with each item's fields in that fixed order.
  - `ParseKey` reads that text back, which proves that distinct requests never share a key.

`Fulfilment` (fulfilment.dfy) connects the saga to the orders-service model. Each remote call is answered by the matching route, or lost. A lost call may be lost before the service acts on it, or after it acted, with only the reply lost. This is where the end-to-end promises are stated:

- a saga that answers 200 after calling the orders service has created exactly one order, and that order is CONFIRMED; a 200 replayed from the cache creates no order;
- a saga that does not answer 200 leaves every stock as it found it and every order it created CANCELED, with two exceptions:
  - a create that commits but whose reply is lost leaves its order CREATED with the stock reserved, because the handler has no order id to cancel;
  - a compensating cancel that never reaches the orders service leaves the stock reserved too;
- `Fulfilment.LostCreateReplyStrandsStock` and `Fulfilment.LostCancelStrandsStock` exhibit the two exceptions;
- a repeated request creates nothing when it is handled by the same instance, whose in-memory cache still holds the first 200. The cache lives in one execution environment only: `Fulfilment.FreshInstanceCreatesAgain` shows that the same request on a fresh instance calls the orders service again and confirms a second order.

`Basics` and `Text` (basics.dfy, text.dfy) provide `Option`/`Result`, substring search, and decimal rendering of integers with its proven inverse.

Some behaviour is modelled exactly as the code has it:

- **Stock check.** The check compares every item with the stock as read, and the decrements come after the whole check. So a request that names one product twice can drive its stock negative. `Ledger.DuplicateItemsOversell` exhibits this, and `Ledger.DistinctItemsKeepStockNonNegative` proves that distinct product ids keep stock non-negative.
- **Placeholder records.** An idempotency record left at the placeholder status 202 is not a duplicate, so a retry runs the confirm again.

Two more behaviours are easy to misread:

- **Which saga responses are cached.** The handler caches only the 200 response; a failed saga is run again on a retry (`Saga.FailureIsNotCached`).
- **A missing customer.** The customers-service call fails with the HTTP client's own message, not with a "customer invalid" error. The create route then answers 400 only if that message contains "stock" or "not found", and 500 otherwise (`Routes.CreateRoute`, last ensures).

## Model

| member | source | states |
|---|---|---|
| Ledger.PriceItems | orders-api/src/order-logic.js:20-38 | Succeeds exactly when every item's product exists and its stock as read covers the quantity. On success, line i carries item i's product and quantity, the product's current price, and the subtotal price × qty. On failure, the error is the one for the first failing item in request order. |
| Ledger.ReservedIsRequested | orders-api/src/order-logic.js:33-57 | The quantities the item rows reserve for a product equal the quantities requested for it. |
| Ledger.AddStock | orders-api/src/order-logic.js:54-57 | One stock update changes only the named product's stock, by the delta. An unknown product id changes no row. |
| Ledger.Withdraw | orders-api/src/order-logic.js:48-58 | After the decrement loop, each product's stock is lower by the sum of the line quantities naming it. No product is added or removed. |
| Ledger.Restock | orders-api/src/order-logic.js:91-97 | After the restore loop, each product's stock is higher by the sum of the item-row quantities naming it. |
| Ledger.RestockUndoesWithdraw | orders-api/src/order-logic.js:54-97 | Putting back the rows' quantities after taking them gives exactly the original products. |
| Ledger.CreateOrder | orders-api/src/order-logic.js:7-70 | A failed customer lookup fails with that error. Otherwise the create succeeds iff every item passes the stock check, and a failure reports the first failing item; a failure leaves no store. On success: the id is the next counter value and the counter advances; one CREATED order has the sum of the subtotals as total; its rows are the priced items; every product's stock drops by its total requested quantity; nothing else changes. |
| Ledger.Message | orders-api/src/order-logic.js:26-79 | The missing-product error text contains "not found". The insufficient-stock text contains "stock", whatever the numbers in it. The missing-order text of the cancel contains "not found". A failed customer lookup keeps the client's message. |
| Ledger.CreateAddsOneOrder | orders-api/src/order-logic.js:41-45 | On a valid store, a successful create adds exactly one order under a fresh id and keeps the store valid. |
| Ledger.RequestedWithinStock | orders-api/src/order-logic.js:29-31 | When items name distinct products and all pass the check, the total requested for a product is within its stock. |
| Ledger.DistinctItemsKeepStockNonNegative | orders-api/src/order-logic.js:23-58 | Non-negative stock stays non-negative after a create whose items name distinct products. |
| Ledger.DuplicateItemsOversell | orders-api/src/order-logic.js:29-57 | With stock 5, a request for 3 and 3 of the same product passes the check and leaves stock −1. |
| Ledger.CreateScenarios | orders-api/src/order-logic.js:20-57 | With stock 5 at 500 cents, ordering 2 gives total 1000, stock 3 and a CREATED order 1. |
| Ledger.CancelOrder | orders-api/src/order-logic.js:73-114 | Fails with "Order not found." exactly when the order is unknown. A CANCELED order comes back unchanged with "Order already canceled.". Otherwise every row's quantity goes back to its product and the order becomes CANCELED; rows and counter stay. |
| Ledger.CancelAfterCreateRestoresStock | orders-api/src/order-logic.js:48-101 | Cancelling the order a create just made restores every product exactly and leaves the order CANCELED. |
| Ledger.CancelTwiceIsNoOp | orders-api/src/order-logic.js:83-87 | A second cancel changes nothing and answers "already canceled". |
| Ledger.CanMoveIsPartialOrder | orders-api/src/order-logic.js:83-100 | The status-transition relation is reflexive, antisymmetric and transitive; nothing returns to CREATED and CANCELED is final. |
| Ledger.EvolvesTransitive | orders-api/src/order-logic.js:89-100 | Legal store successions compose. |
| Ledger.CreateEvolves | orders-api/src/order-logic.js:40-57 | A create keeps every existing order unchanged (status, customer and total) and every existing order's rows, so the store evolves legally. |
| Ledger.CancelEvolves | orders-api/src/order-logic.js:83-100 | A cancel moves only legal transitions and keeps the store valid. |
| Idempotency.CheckKey | orders-api/src/idempotency-logic.js:5-49 | A duplicate is reported exactly when the key holds a finalized record, with its status, its body (empty when it does not parse) and its target id (absent on a parse failure). An absent key gains a 202 `ORDER_CONFIRMATION` placeholder. Existing rows, placeholders included, are never changed. |
| Idempotency.Save | orders-api/src/idempotency-logic.js:52-65 | Only the key's own row gets the body, status and target id. Other rows are unchanged, and an absent key creates no row. |
| Idempotency.CheckSaveCheck | orders-api/src/idempotency-logic.js:14-64 | Check, then save with a final status, then check again on a fresh key: the second check replays exactly that status, body and order id. |
| Idempotency.CheckTwiceInsertsOne | orders-api/src/idempotency-logic.js:41-48 | Two checks of a fresh key insert one row, and both let the caller proceed. |
| Routes.CreateRoute | orders-api/src/routes.js:56-79 | A request failing the schema gets 400 "Validation failed". 201 is sent exactly when the request is valid and the create commits, with the created order. A stock or missing-product failure gets 400 with the ledger's error text as its message. A failed customer lookup gets 400 or 500 by its message's words. Any non-201 leaves the store unchanged. |
| Routes.CreateRefusalStatus | orders-api/src/routes.js:76 | Every error the create transaction raises itself maps to 400; a failed customer lookup is mapped by its own message. |
| Routes.ConfirmRoute | orders-api/src/routes.js:82-136 | A finalized key replays its stored reply and changes nothing. Otherwise: a missing order gets 404; CONFIRMED gets 200 "already confirmed"; CANCELED gets 400; CREATED becomes CONFIRMED with 200 and the total; a thrown error gets 500 with its message. The reply sent is always the one the key now replays. The order changes only by CREATED→CONFIRMED, and no other key's row is touched. |
| Routes.ConfirmReplays | orders-api/src/routes.js:87-134 | A repeat with the same key, for any order id and any fault, returns the identical reply and state. So the CONFIRMED write happens at most once per key. |
| Routes.ConfirmUnderNewKey | orders-api/src/routes.js:102-121 | After a confirm, a confirm under another fresh key answers 200 "already confirmed" and leaves the ledger alone. |
| Routes.CancelRoute | orders-api/src/routes.js:139-148 | An unknown order gets 404 "Order not found." with no change. Otherwise 200 with the cancel's message and status CANCELED, and the cancel's store. |
| Routes.CancelMissingStatus | orders-api/src/routes.js:145 | The cancel transaction's missing-order error maps to 404. |
| Text.ReadIntText | lambda-orchestrator/src/idempotency.js:3-5 | The decimal text of any integer, followed by a non-digit, reads back as that integer and the rest. |
| SagaCache.ParseGetKey | lambda-orchestrator/src/idempotency.js:3-5 | The saga key that `GetKey` builds reads back as the customer id and items it was made from. |
| SagaCache.GetKeyInjective | lambda-orchestrator/src/idempotency.js:3-5 | Two requests share a key iff they have the same customer id and the same items. |
| SagaCache.Save | lambda-orchestrator/src/idempotency.js:11-13 | Afterwards the key answers the saved response, every other key answers as before, and the key set grows by the key. |
| SagaCache.SaveOverwrites | lambda-orchestrator/src/idempotency.js:11-13 | A later save to the same key replaces the earlier one. |
| Saga.ConfirmKeyReadsBack | lambda-orchestrator/src/handler.js:53 | The confirm call's key `customer-order-CONFIRM` reads back as the customer id and the order id. |
| Saga.ConfirmKeyInjective | lambda-orchestrator/src/handler.js:53 | Two confirm keys are equal iff they are for the same customer and the same order. |
| Saga.Handle | lambda-orchestrator/src/handler.js:8-109 | Unparseable input gets 400 and a missing field gets 400, both with no call. A cache hit replays with no call. A failed create gives exactly the create call, and the create error's status or 500. A failed confirm gives the calls create, confirm (under key `customer-order-CONFIRM`) and, when the order id is non-zero, one cancel of that order; the confirm error's status; and the cancel's failure message as the logged compensation error. Success gives exactly create and confirm, 200 with the confirm's data, logs nothing, and caches it. Nothing else changes the cache. |
| Saga.CompensationIsBestEffort | lambda-orchestrator/src/handler.js:77-89 | Whether the cancel succeeds changes only what is logged: not the response, the calls or the cache. |
| Saga.SuccessIsReplayed | lambda-orchestrator/src/handler.js:24-74 | After a run that cached its response, the same request handled with that cache replays it with no call, whatever the services would answer. |
| Saga.FailureIsNotCached | lambda-orchestrator/src/handler.js:76-107 | A run whose status is not 200 leaves the cache as it was. |
| Fulfilment.CreateStep | lambda-orchestrator/src/handler.js:34-45 | Seen from the ledger, the create call either fails with a non-200 status and no ledger change, or is the ledger's create with its order id. |
| Fulfilment.ConfirmOfNewOrder | orders-api/src/routes.js:114-134 | A first confirm of a CREATED order either confirms it with 200 or fails with 500 and no ledger change. |
| Fulfilment.CancelAfterConfirmation | orders-api/src/order-logic.js:89-100 | Cancelling an order that a confirm has just marked CONFIRMED restores the same stock and leaves the same orders as cancelling it while CREATED. |
| Fulfilment.CompensationRestores | lambda-orchestrator/src/handler.js:77-89 | When the confirm of a new order fails, by its reply or by a loss either way, the compensating cancel restores every product's stock and leaves the new order CANCELED. |
| Fulfilment.ConfirmationLands | lambda-orchestrator/src/handler.js:45-58 | When the confirm of a new order succeeds, exactly that order is added and it is CONFIRMED. |
| Fulfilment.CreateThenCompensate | lambda-orchestrator/src/handler.js:76-107 | After a successful create, a failed or lost confirm gives 500; unless the cancel is lost before reaching the service, every stock is restored and the order CANCELED. |
| Fulfilment.SagaIsAllOrNothing | lambda-orchestrator/src/handler.js:32-108 | Against the orders-service model, with any call or reply lost: a 200 saga that called out created exactly one order, CONFIRMED. A non-200 saga leaves every stock unchanged and any order it created CANCELED, unless the create's reply was lost after the commit or the cancel was lost before reaching the service. |
| Fulfilment.LostCreateReplyStrandsStock | lambda-orchestrator/src/handler.js:44-90 | A create that commits but whose reply is lost: 500 with the default reason, no cancel call, the stock stays reserved and the order CREATED. |
| Fulfilment.LostCancelStrandsStock | lambda-orchestrator/src/handler.js:76-90 | A confirm that throws followed by a cancel lost before it reaches the service: 500, the cancel's failure is logged, the stock stays reserved and the order CREATED. |
| Fulfilment.RefusalIsReported | lambda-orchestrator/src/handler.js:90-107 | A create the ledger refuses gives the create route's 400, with the ledger's error text after the failure prefix as the reason, one call and no change. |
| Fulfilment.ConfirmThrewIsReported | lambda-orchestrator/src/handler.js:90-107 | A confirm that throws in the orders service gives 500 with "Error confirming order" after the failure prefix as the reason. |
| Fulfilment.RetryAfterSuccessCreatesNothing | lambda-orchestrator/src/handler.js:24-30 | The same request after a successful saga, handled with the cache that saga left behind, replays the response, makes no call and leaves the orders service untouched. |
| Fulfilment.FreshInstanceCreatesAgain | lambda-orchestrator/src/idempotency.js:1 | The same request after a successful saga, handled by an instance whose cache is empty, calls create again, and if it answers 200 (with a fresh confirm key) it has confirmed another order. |
| Fulfilment.ConfirmFailureScenario | lambda-orchestrator/src/handler.js:45-107 | With stock 5, an order of 2 whose confirm throws gives 500 and the calls create, confirm, cancel; stock ends at 5 and the order CANCELED. |

## Left out

- **Concurrency.** Row locks (`FOR UPDATE`) and races between concurrent requests are not modelled: each request is one atomic step. So the placeholder record's role in racing confirms is not modelled either.
- **Idempotency-table and order-read failures.**
  - Failures of the idempotency table's own queries are not modelled.
  - A failure of the save inside the confirm's error handler is not modelled.
  - The read and update of the order may throw; that is the `fault` parameter.
- **Database errors in create and cancel.** They are not modelled. So the cancel route's 500 branch and its branch for an unknown status value cannot be reached in the model.
- **HTTP client, JSON and customer data.**
  - The HTTP client is not modelled. The failure message it builds for a status, and the JSON text of a body, are parameters (`Fulfilment.Transport`). A lost call carries its message in `Fulfilment.Delivery`.
  - The `customer` field of `createOrder`'s result (order-logic.js:63) is not modelled: `Ledger.Placed` has no such field. The create route never sends it (routes.js:62-71).
  - A body that parses to `null` makes the handler throw a TypeError when it reads the fields (handler.js:18), so the invocation fails without a response. `Saga.Event` has no case for it.
- **Input shapes.**
  - Request items are `{product_id, qty}` pairs with integer fields, without extra properties.
  - `customer_id` is an integer or absent. Other JSON types for it are not modelled.
  - Path ids arrive as integers, not as text coerced by SQL.
- **Rest of the system.** Logging, environment variables, authentication middleware, process start-up, product CRUD, the GET routes and the customers service are outside the workflow.
- SagaCache.GetKeyInjective: the model writes each item's `product_id` before its `qty`. `JSON.stringify` keeps the property order of the client's body, so `{"qty":2,"product_id":1}` and `{"product_id":1,"qty":2}` get different keys in the code, and a retry with reordered fields runs the saga again. The model treats the two as one key, so it deduplicates more than the code does.
- Ledger.CreateOrder: prices, quantities, subtotals, totals and stock are unbounded integers. The code computes subtotals and totals as JavaScript numbers, which are exact only up to 2^53, and stores them in SQL columns of finite width, where an out-of-range INSERT or UPDATE rolls the transaction back and gives a 500, or a 400 when the driver's message names the `stock` column, since routes.js:76 maps any message containing "stock" to 400. The model has no such failure. A signed `stock` column is assumed: an UNSIGNED one would make that rollback refuse the oversell `Ledger.DuplicateItemsOversell` exhibits. Order and customer ids are unbounded too, so the decimal text inside saga and confirm keys is exact only for ids below 2^53, as JavaScript prints them.
- Idempotency.CheckSaveCheck: requires a final status other than 0, because the code treats a stored 0 as "not processed".
- Fulfilment.SagaIsAllOrNothing: assumes the confirm key of the next order id was never used before (`Fulfilment.Ready`), because a reused key would replay an unrelated stored response: a stored 200 would answer 200 with the new order left CREATED.
- Fulfilment.ConfirmationLands: assumes the same fresh confirm key; under a reused key the confirm replays the stored reply and does not confirm the new order.
- Fulfilment.CompensationRestores: assumes the same fresh confirm key, which is what makes a delivered failed confirm a 500.
- Fulfilment.CreateThenCompensate: assumes the same fresh confirm key; a replayed stored reply (a 404, say) would be answered with its own status instead of 500.
- Fulfilment.ConfirmThrewIsReported: assumes the same fresh confirm key; under a reused key the confirm replays and the thrown error never happens.
- Idempotency.CheckKey: keys are compared as exact strings, that is, a binary collation of the key column is assumed. Under a case-insensitive or trailing-space-padding collation the database would treat `k` and `K` (or `k` and `k `) as one key and replay where the model proceeds; the same holds for `Routes.ConfirmUnderNewKey`'s distinct keys.
- Fulfilment.RetryAfterSuccessCreatesNothing: holds only when the second request reaches the instance whose cache the first run filled. The cache is a module-level object of one execution environment and is not durable: a cold start, or a concurrent or later invocation on another instance, starts from an empty cache and runs the saga again (`Fulfilment.FreshInstanceCreatesAgain`).
- Saga.SuccessIsReplayed: likewise promises a replay only under the cache the first run left behind; the model passes that cache explicitly, while the code keeps it in one instance's memory.
