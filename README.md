# CRM server core in Dafny

A Dafny model of the core of a small Express/Redis/Mongo CRM server:

- **The audience filter compiler** (`buildQuery`, module `QueryCompiler`, `query.dfy`). An ordered list of filter rules `{field, operator, value, logic}` is folded left to right into a Mongo query document. Query documents are a datatype: `{}`, a condition, `$and` or `$or`. The fold is a pure recursive function. The lemmas cover the tree's shape, its leaves and its meaning. They show that a run of one logic is flattened into one combinator. A switch of logic wraps everything built so far. A rule with any other logic is dropped, and the first rule's logic is ignored. The compiled tree means exactly the boolean left fold `((c0 op1 c1) op2 c2) ...`.
- **The API handlers** (module `Api`, `api.dfy`). The store is a `Backend` object. It holds the Customer, Order and CommunicationLog collections, the id supply, and a trace of every outside effect in order: store writes, publishes, sender calls and status updates. Each route is a method: `POST /customer`, `POST /order`, `GET /customer/:id/orders`, `POST /audience/size`, `POST /audience/save`, `POST /delivery-receipt` and `GET /campaigns`. The send loop `sendPersonalizedMessages` and `updateDeliveryStatus` are methods too. Each method's postcondition gives its reply and the whole new state. Store and bus failures come in as a `Fault` input. The sender's answer to each attempt comes in as a `respond` input. How one query condition matches a customer comes in as a `sat` input.
- **The batching consumer** (module `Consumer`, `consumer.dfy`). It holds `batchQueue` and `timer`, and it is driven by three events: a message arrives, the timer fires, and the flush's `Promise.all` settles. The transitions are pure functions on a `State` datatype, with lemmas about runs of events. The class `BatchConsumer` holds the same state in fields and updates it in place. Each of its methods is proved equal to the matching transition.

Behaviour of the code that the model reproduces as written:

- `sendPersonalizedMessages` passes each member's customer id to `updateDeliveryStatus`, which updates the CommunicationLog with that id. Customer ids and log ids come from one id supply, so no log has that id. The loop therefore changes no log. A saved audience's log keeps its default status `SENT` whatever the sender answers (`SendsMissLogs`, `SaveAudience`).
- `POST /order` checks only that `customerId` has the form of an ObjectId. An order for a customer that does not exist is stored and published (`OrderForUnknownCustomer`).
- A flush in which any save fails keeps the whole queue, already-saved items included. The next flush saves them again (`FailedFlushRetried`, `PartialFailureSavesTwice`). A fully successful flush empties the whole queue. This also erases, unsaved, the messages that arrived while it was pending (`ArrivalsDuringFlushLost`).
- An unknown operator compiles to the empty condition `{}`, which matches everything (`Condition`).
- A resubmitted customer with the same visit count gets the same 400 status as a missing field. Only the reason differs.
- A delivery receipt stores whatever status string it carries. The update does not apply the schema's `SENT`/`FAILED` enum.

## Model

| member | source | states |
|---|---|---|
| `QueryCompiler.Condition` | backend/routes/api.js:15-35 | the condition is a leaf, and it is `{}` exactly when the operator is not one of the six known names |
| `QueryCompiler.ConditionRoundTrip` | backend/routes/api.js:15-35 | on the six known operators the mapping is invertible: the field, operator name and value can be read back from the condition; any other operator gives `{}` |
| `QueryCompiler.BuildQuery` | backend/routes/api.js:9-49 | every compiled query has the left-spine shape: combinators have two or more children, all children but the first are conditions, and the first child is never a combinator of the same kind |
| `QueryCompiler.EmptyAndSingle` | backend/routes/api.js:10-38 | no rules compile to `{}`; one rule compiles to exactly its own condition, whatever its logic |
| `QueryCompiler.FirstLogicIgnored` | backend/routes/api.js:37-45 | changing the first rule's logic never changes the compiled query |
| `QueryCompiler.AppendStep` | backend/routes/api.js:12-46 | appending a rule is one combine step on the query compiled so far (the fold is a left fold) |
| `QueryCompiler.UnknownLogicDropped` | backend/routes/api.js:39-45 | a later rule whose logic is neither AND nor OR leaves the query unchanged |
| `QueryCompiler.SwitchWraps` | backend/routes/api.js:40-44 | when the logic differs from the top combinator's kind, the whole prior query becomes the first of two children of a new combinator |
| `QueryCompiler.SameLogicExtends` | backend/routes/api.js:40-44 | when the logic matches the top combinator, the new condition is appended to its children, with no nesting |
| `QueryCompiler.MixedLogicExample` | backend/routes/api.js:37-45 | `[A, B(AND), C(OR)]` compiles to `{$or: [{$and: [A, B]}, C]}` |
| `QueryCompiler.FlatRun` | backend/routes/api.js:40-43 | two or more rules all joined by AND (or all by OR) compile to one flat `$and` (`$or`) whose children are the conditions in input order |
| `QueryCompiler.CombineLeaves` | backend/routes/api.js:40-44 | one combine step adds exactly the new condition at the right end of the leaves, or nothing when the logic is unknown |
| `QueryCompiler.LeavesAreKeptConditions` | backend/routes/api.js:12-46 | the leaves of the compiled query are the conditions of the first rule and of every AND/OR rule, in input order: none is lost, duplicated or reordered |
| `QueryCompiler.CombineMeaning` | backend/routes/api.js:40-44 | flattening and wrapping keep meaning: a combine step is a conjunction, a disjunction or nothing |
| `QueryCompiler.CompiledMeaning` | backend/routes/api.js:9-49 | for every meaning of single conditions, the compiled query means the boolean left fold of the rules |
| `Api.IndexOfEmail` | backend/routes/api.js:59 | finds the first customer with that email, or reports that none has it |
| `Api.Matching` | backend/routes/api.js:146 | a customer is a match exactly when it is in the collection and satisfies the compiled query |
| `Api.OrdersOf` | backend/routes/api.js:127 | an order is listed exactly when it is stored with that customer id |
| `Api.Ids` | backend/routes/api.js:152 | the audience member ids are the members' ids, position by position |
| `Api.SetStatus` | backend/routes/api.js:215-218 | only the `status` of logs with the given id changes; every other field and every other log stays as it was |
| `Api.SendTraceShape` | backend/routes/api.js:167-185 | each member is attempted exactly once, in order, whatever earlier attempts returned; each attempt is followed by one status update keyed by the member's id, `SENT` iff the answer was 2xx, else `FAILED` |
| `Api.SetStatusIdempotent` | backend/routes/api.js:215-218 | repeating a status update has no further effect |
| `Api.SetStatusMissingId` | backend/routes/api.js:215-218 | an update keyed by an id no log has changes nothing |
| `Api.SendsMissLogs` | backend/routes/api.js:176-182 | when no log shares an id with a member, the send loop's updates leave every log unchanged |
| `Api.Backend.SubmitCustomer` | backend/routes/api.js:52-92 | falsy field (including 0 visits or spends): 400 and nothing touched; same email with same visit count: 400 and nothing saved or published; same email with a new count: only `totalvisits` changes, one save, one publish; new email whose `lastvisit` is a date: one record created, one save, one publish; new email whose `lastvisit` is not a date: the save fails, 500 and nothing stored; store failure: 500, and a failed publish leaves the write in place |
| `Api.Backend.SubmitOrder` | backend/routes/api.js:94-117 | missing or empty product or id: 400; id not an ObjectId: 400; otherwise one order is stored and published, with no check that the customer exists |
| `Api.Backend.ListOrders` | backend/routes/api.js:119-138 | malformed id: 400; otherwise exactly the orders with that customer id; the 404 reply is never given |
| `Api.Backend.AudienceSize` | backend/routes/api.js:187-201 | replies with the number of customers matching the compiled filters, changes nothing, 500 when the filters are absent or the count fails |
| `Api.Backend.SaveAudience` | backend/routes/api.js:140-165 | one log is saved, holding the filters, the number of matches and their ids in match order; it is saved before any send; then the send loop runs; the new log's status stays `SENT` |
| `Api.Backend.SendPersonalizedMessages` | backend/routes/api.js:167-185 | the trace grows by the send trace of the members and the logs are the result of applying their status updates in order |
| `Api.Backend.UpdateDeliveryStatus` | backend/routes/api.js:215-219 | sets the status of the log with that id, if any, and records the update |
| `Api.Backend.DeliveryReceipt` | backend/routes/api.js:203-213 | a well-formed id updates that log's status to the given string and replies 200, also for an unknown id; a missing id is sent as null, updates no log and replies 200; a present id that is not an ObjectId, the empty string included, or a store failure is a 500 |
| `Api.Backend.ListCampaigns` | backend/routes/api.js:221-229 | replies with every log, or 500 on a read failure |
| `Api.CustomerResubmission` | backend/routes/api.js:52-87 | on a fresh store, for a submission whose `lastvisit` is a date: create gives 200, the same submission again gives 400 (same visits), a new visit count gives 200, and one record exists |
| `Api.OrderForUnknownCustomer` | backend/routes/api.js:94-117 | on a store with no customers, an order for any well-formed id is accepted and published |
| `Consumer.Receive` | backend/consumer/index.js:52-71 | malformed payloads and unknown channels change nothing; a customer or order message only records one save of that document and never touches the queue or the timer; a log message is appended to the queue and leaves the timer set; a set timer is never re-armed; no message flushes |
| `Consumer.Fire` | backend/consumer/index.js:40-46 | on an empty queue the timer is cleared, no flush starts and nothing is saved; otherwise the whole queue becomes one batch in flight |
| `Consumer.Complete` | backend/consumer/index.js:40-65 | the successful saves are stored; the queue is emptied only if every save succeeded, and then the items that arrived meanwhile are lost; the timer is cleared either way |
| `Consumer.SavedItems` | backend/consumer/index.js:43 | when every save succeeds, all items of the batch are stored |
| `Consumer.SavedItemsExactly` | backend/consumer/index.js:43 | for any outcome of a batch, every item whose save succeeded is stored, and only such items are |
| `Consumer.ReceiveLogs` | backend/consumer/index.js:59-66 | log messages are appended in order; the first on an idle consumer opens one window and later ones neither re-arm nor flush, so the queue is unbounded |
| `Consumer.InitialInv` | backend/consumer/index.js:21-23 | the consumer starts idle with an empty queue, inside the invariant |
| `Consumer.FireOnNonEmpty` | backend/consumer/index.js:40-66 | in a reachable state the timer never fires on an empty queue |
| `Consumer.OneWindowOneFlush` | backend/consumer/index.js:40-66 | any burst of log messages on an idle consumer is saved by exactly one flush holding all of them, after which the consumer is idle |
| `Consumer.ArrivalsDuringFlushLost` | backend/consumer/index.js:43-64 | messages arriving while a flush is pending arm no timer; on success they are erased unsaved |
| `Consumer.FailedFlushRetried` | backend/consumer/index.js:40-66 | a flush with a failed save keeps the whole queue; the next message opens a new window whose flush carries the whole queue again |
| `Consumer.PartialFailureSavesTwice` | backend/consumer/index.js:40-66 | a batch `[x, y]` where only `x` is saved leads to `x` being stored twice |
| `Consumer.BatchConsumer.OnMessage` | backend/consumer/index.js:52-71 | updates the fields in place exactly as `Receive` |
| `Consumer.BatchConsumer.TimerFire` | backend/consumer/index.js:40-46 | updates the fields in place exactly as `Fire`, and keeps the invariant |
| `Consumer.BatchConsumer.FlushComplete` | backend/consumer/index.js:40-65 | collects the successful saves in a loop and updates the fields exactly as `Complete` |

## Left out

- The HTTP layer. Replies are the `Reply` datatype; bodies are already-parsed values. A defined `filters` value that is not an array, which also fails with 500, is not modelled: only an absent one is.
- `backend/app.js`: process start-up, configuration, the Mongo and Redis connections and the middleware.
- Mongo query evaluation. How a single condition matches a customer is the `sat` input; `$and` and `$or` are conjunction and disjunction.
- `mongoose.Types.ObjectId.isValid`. A raw id is classified up front as missing (undefined or null), malformed (the empty string included) or well-formed (`IdInput`).
- Date parsing. Whether `lastvisit` casts to the schema's `Date` is the `isDate` input of `SubmitCustomer`.
- The external sender call. Its answer to each attempt is the `respond` input: a status code or a transport error.
- Redis transport and JSON serialisation. A publish is a trace entry; a parsed message is a `Message`.
- Real time. The 5-second window is the explicit `TimerFire` event.
- `Promise.all` concurrency. A flush settles in one `FlushComplete` step with one result per item; early rejection and saves that finish afterwards are not modelled.
- Failures of the status updates inside the send loop. A failed `SENT` update is caught by the loop's own `catch`, which then issues a `FAILED` update for the same member; only a failed `FAILED` update escapes the loop and turns the request into a 500. The model's updates always succeed.
- Concurrency between requests, including the read-then-write race on the customer visit guard.
- The outcome of the consumer's customer and order saves. They are fire-and-forget and are recorded only as attempts.
- The `createdAt` default of a log. The clock is not modelled. The `campaignDetails` value passed when a log is created is not a path of the log schema, so it is never stored and the model has no field for it.
- Console logging.
- Request values of the wrong JSON type, such as numbers sent as strings (which never pass `===`) or NaN. Numbers are `int`; there is no floating point.
- A filter whose field is literally `$and` or `$or`, which JavaScript would treat as a combinator.
- Api.Matching: the postcondition states membership, not order. The collection order of matches is fixed only by the definition.
