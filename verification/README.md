# Order, inventory and payment saga: a verified model

Three Go services share one Postgres database and talk over Kafka: order-service places and cancels orders,
inventory-service takes and returns stock, payment-service charges and refunds through Stripe. Each handler
is one database transaction that marks its delivery as processed, changes its tables and stores the events
it announces in `outbox_events`; relays copy stored events to Kafka. This project models those handlers, the
tables, the locks, the relays, the consumers and the Stripe client, and proves what the three services promise
together, for every interleaving, redelivery, failure and crash.

`dafny verify dfyconfig.toml` checks everything.

## How it is built

Three layers, each proved against the next, and the relays beside them.

1. **Atomic saga** (`Model`, `Handlers`, `Stripe`, `Saga`, `Progress`, `Stock`). `Handlers.Handle` is what one
   committed handler does to the tables. `Saga.Next` lets any delivered handler commit, any Stripe call land
   and any relay publish. `Saga.Inv` is its invariant, order by order; `Progress.Later` says what no later
   state may take back; `Stock` holds the exact stock ledger.
2. **Step layer** (`Transactions`, `Serializability`, `Refinement`, `Deadlock`, `Runs`, `Guarantees`, `Answers`). Any
   number of transactions, each with a program counter per SQL statement or Stripe call, the locks it holds and
   the writes it has not committed. Every statement reads the committed tables of its own moment (READ COMMITTED).
   Locks are the unique keys of processed_events, cancelled_orders, payments and orders, the advisory lock
   (through a hash that may collide), and the rows of payments, products and orders. `Refinement.StepRefines`
   shows that every step is a step of the atomic saga or invisible to it; `Realization.HistoryRuns` shows the
   other direction, for every answer the code can get. `Guarantees` and `Answers` state the results over runs of
   this layer, and `Anomalies` builds runs of it that disappoint.

   The relays have their own step layer in `Delivery`, with rows and messages. `Pipeline` puts it together with
   the services: one outbox table, one Kafka log. What the services do there is a run of their own
   (`Pipeline.ServicesRun`), and every relay step is a publication or invisible to them.
3. **The services as they run** (`Database`, `Resilience`, `Scripts`, `Services`, `Inventory`, `Orders`, `Deployment`,
   `Relay`, `Consumer`). Classes with mutable tables, transactions that begin, fail at any statement, commit, commit
   in doubt or roll back, retry and polling loops. Each handler method leaves the tables of `Handlers.Handle`,
   or leaves them alone; the statements it issues are those of the step layer (`Scripts.ScriptedFollows`);
   its Stripe calls and its commit are steps of the saga (`Services.Serves`). `Relay` runs steps of `Delivery`.

   What may fail is fixed from outside and for every choice: which statements of the database (`fate`), which calls
   to Stripe land and which replies arrive (`lands`, `replies`), which fetches and offset commits fail, and for a relay
   pass which writes, marks and commits do (`Weather`). Each object counts what has failed, so that the contracts say
   what must happen as well as what must not: a handler returns an error exactly if a statement failed or Stripe left
   what was due unsettled (`Services.Served`).

## What is assumed of the environment

- Kafka may repeat, delay, reorder or drop deliveries. A handler runs for an event only if a relay wrote it.
- Stripe binds an idempotency key to one object for good. A call that reports an error may have taken effect;
  in particular an exhausted charge sequence may have charged.
- Ids of orders, outbox rows and intents do not repeat, as version 7 UUIDs do not (section 5.7 of RFC 9562); in the
  step layer an order id that is taken violates the primary key and fails. Stripe never reuses an intent id.
- A request on its way to Stripe may land at any later time, however often: after a timeout, after the retry
  sequence was given up, and after its handler has lost its database session. Losing a session ends the
  transaction and frees its locks at once; it does not call a request back.
- A webhook names any intent with either outcome, at any time and any number of times.
- Nothing is assumed of Kafka acknowledgements: internal/outbox/relay.go:26-29 configures no acknowledgement
  level, so a write that is reported as done may not have landed.

## What the code does not promise

Each of these comes with a concrete run or session that shows it, and with a theorem about all of them that says
exactly when it happens.

- A charge that failed after all retries is announced as payment.failed, and the comment at
  payment-service/handler.go:108-112 calls it final. Stripe may hold the money all the same
  (`Anomalies.ChargedButFailed`), for good: exactly if a charge had landed by then, or one of its requests still
  lands (`Guarantees.FailedChargeIsFinal`).
- The comments at internal/db/payments_repo.go:69-74 and payment-service/handler.go:87-90 say that a cancel and a
  charge cannot miss each other. They cannot at the payments row (`Guarantees.NoKeptPayment`), but they can at
  Stripe, in two ways. A charge lands, its transaction is lost, the cancel finds no row, and the redelivered
  order.created skips the charge (`Anomalies.CancelledUnrecorded`). Or the session is lost while the charge is on
  its way, the cancel commits, and the charge lands then (`Anomalies.LandsAfterCancel`). Once order.created has
  been handled or the cancel committed without a row, there never is one, and Stripe holds the whole amount exactly
  if a charge had landed by then or a request sent before lands late (`Guarantees.SettledWithoutRow`);
  `Guarantees.CancelledMoney` says when money of a cancelled order is held at all.
- A first payment_intent.payment_failed webhook overwrites any status, refunded and succeeded included
  (`Anomalies.BothOutcomes`). A cancel that follows a success and a failure refunds nothing
  (`Anomalies.CancelledButKept`); `Guarantees.CancelRefundsExactly` says when a cancel leads to a refund,
  `Guarantees.RefundedStays` and `Guarantees.SucceededStays` how long a payment stays refunded or succeeded.
- The out-of-stock answer is a plain read that nothing protects until commit. It was true when it was read
  (`Guarantees.RanOut`), but inventory.failed can be committed with units in stock (`Anomalies.StaleAnswer`).
  Handlers run one after the other that read the stock for themselves give the same tables if and only if that
  never happened (`Answers.SerialUnlessStale`).
- Stock can exceed what it opened with: a compensation does not ask whether anything was deducted
  (`Anomalies.RestockedTwice`). `Guarantees.StockAlwaysExact` gives the exact surplus. An order is restocked twice
  exactly when both its compensations are processed (`Realization.RestockedTwiceIff`): that takes a cancel and a
  payment.failed stored before payment-service committed it (`Guarantees.DoubleRestockCause`), and wherever both are
  stored some continuation does it (`Realization.CanBeRestockedTwice`).
- A row marked as published can be missing from Kafka (`Delivery.PublishedButMissing`): exactly if the write behind
  its mark never landed and no other pass wrote it (`Delivery.LogIsTraced`). If every write taken for done has
  landed, none is (`Delivery.NothingLost`).
- internal/kafka/consumer.go:50 says an uncommitted message will be redelivered. After a restart it is, exactly
  if no later offset of its session was committed (`Consumer.RedeliveredIff`); once one was, it never comes again
  (`Consumer.SkippedForGood`, with two sessions in `Consumer.FailedAndSkipped`).
- Each consumer uses the charge breaker alone and is never told "too many requests" (`Resilience.SequentialUse`).
  The refund breaker is shared by the cancel consumer and the webhooks (payment-service/main.go:57-60). With any
  number of callers, one is refused that way exactly while the breaker is half open and its one trial has not
  reported back (`Resilience.RefusedExactly`); `Resilience.RefusedOnce` is a history that gets there.

## Model

| member | source | states |
|---|---|---|
| Guarantees.NoKeptPayment | payment-service/handler.go:178-194 | in every reachable state of every interleaving, no order in cancelled_orders has a payments row with status succeeded |
| Guarantees.QuietAfterCancel | payment-service/webhook.go:113-139 | once payment-service has committed a cancel, no later step adds a payment.completed or payment.failed row for that order |
| Guarantees.OutcomesOnce | payment-service/refund.go:34-42 | each order ever has at most one payment.completed, one payment.refunded and one payment.failed row, whichever path wrote it |
| Guarantees.OutcomesAnnounced | payment-service/webhook.go:113-139 | a recorded first success is announced as completed or refunded; a failure recorded while the order was not cancelled is announced; with a payments row, only a failure webhook can have announced payment.failed |
| Guarantees.RefundedStays | internal/db/payments_repo.go:46-63 | a refunded payment is failed later if a first payment_failed webhook has committed in between, and still refunded otherwise |
| Guarantees.SucceededStays | internal/db/payments_repo.go:46-63 | a succeeded payment is later failed if a first payment_failed webhook has committed in between, else refunded if the cancel has, else succeeded |
| Guarantees.MoneyAtStripe | internal/stripeclient/client.go:31-72 | over all retries, rollbacks and redeliveries each order has at most one intent, for the order's amount; its net is 0 or that amount; the total is the sum over charged, unrefunded orders |
| Guarantees.RefundsFollowCancels | payment-service/refund.go:34-42 | every refund at Stripe, rolled back or not, is of the recorded payment of an order that is already and forever cancelled, with its order.cancelled stored |
| Guarantees.EventsNameTheirProduct | order-service/handlers.go:79-87 | every stored or sent event of any service, and every payments row, carries its own order's product |
| Guarantees.FailedChargeIsFinal | payment-service/handler.go:107-122 | after the charge path commits a failure: one payment.failed ever, no payments row, no processed webhook, no refund; the net at Stripe is the amount if and only if a charge has landed, which it has if and only if one had by the commit or a request sent before lands late |
| Guarantees.SettledWithoutRow | internal/db/payments_repo.go:69-90 | an order handled or cancelled without a payments row never gets one, no webhook and no refund; the net at Stripe is the amount if and only if a charge has landed, which it has if and only if one had by then or a request sent before lands late |
| Guarantees.CancelledMoney | payment-service/handler.go:143-153 | Stripe holds money of a cancelled order exactly if its charge landed and no refund did; its payments row, if any, is then pending or failed |
| Guarantees.CancelledIsRefunded | payment-service/webhook.go:121-137 | a cancelled order whose only recorded outcome is success is refunded: row, event and a zero net at Stripe |
| Guarantees.CancelRefundsExactly | payment-service/handler.go:185-194 | a cancel leads to payment.refunded if and only if the row said succeeded at its commit or a first success is recorded afterwards |
| Guarantees.StockAlwaysExact | inventory-service/handler.go:80-159 | stock is never negative, and stock plus units held equals opening stock plus units given back beyond those taken; at most one deduction and two compensations per order |
| Guarantees.DoubleRestockCause | inventory-service/handler.go:116-159 | an order restocked twice was cancelled and had its payment.failed stored before payment-service committed the cancel |
| Realization.RestockedTwiceIff | inventory-service/handler.go:134-148 | an order is restocked twice if and only if both its compensations have been processed |
| Realization.CanBeRestockedTwice | inventory-service/handler.go:116-159 | from any state in which the order is cancelled and its payment.failed stored, some continuation restocks it twice |
| Guarantees.RanOut | internal/db/products_repo.go:24-38 | an insufficient-stock answer was given by this transaction's own deduction, run when the product was unknown or out of stock |
| Answers.OwnAnswerUnlessStale | inventory-service/handler.go:89-107 | a commit leaves the tables its handler would leave by reading the stock at that moment, if and only if it is not an out-of-stock answer committed with units in stock |
| Answers.SerialUnlessStale | inventory-service/handler.go:80-107 | running the committed handlers one at a time, each reading the stock for itself, gives the tables of the run if and only if no such answer was committed |
| Guarantees.NoDeadlock | internal/db/payments_repo.go:69-119 | no circle of waits in any reachable state, whatever the advisory hash; some open transaction can always take its own next step |
| Runs.Serializable | payment-service/handler.go:63-140 | the committed tables of any interleaving are those of the committed handlers run one at a time in commit order, without their idempotency checks, each given the answer Stripe or its stock read gave it |
| Runs.HandledOnce | internal/db/processed_events_repo.go:24-35 | every committed delivery recorded its own (order, event type, group) key, and no two recorded the same |
| Refinement.StepRefines | payment-service/handler.go:63-200 | every statement, Stripe call, commit, rollback and publication of any interleaving is a step of the atomic saga or invisible to it, and keeps the invariant |
| Refinement.CommitIsHandler | payment-service/webhook.go:85-148 | the tables a transaction commits are those its handler would leave if run alone on the tables of that moment |
| Serializability.CommitSpares | internal/db/payments_repo.go:69-119 | whatever a transaction has read and relies on survives the commit of any other, thanks to the locks both hold |
| Serializability.ExecShape | payment-service/webhook.go:92-139 | each statement takes its transaction from one described point (locks, reads, writes) to the next |
| Deadlock.LocksRise | payment-service/handler.go:69-83 | a transaction only asks for locks that rank above all it holds: mark, advisory, tombstone, payments row, webhook mark, unique intent |
| Deadlock.NoWaitCycle | internal/db/payments_repo.go:75-80 | the wait-for graph has no cycle even when two orders share an advisory key |
| Saga.StepKeeps | payment-service/handler.go:154-200 | any committed handler, landed Stripe call or publication keeps the saga invariant of every order |
| Saga.OthersUntouched | payment-service/webhook.go:92-139 | a handler touches no row, mark or event of any order but its own |
| Progress.StepLater | internal/db/orders_repo.go:58-75 | no step takes back an order's cancel, a mark, an event, a payment's intent, or a refund other than by a first failure webhook |
| Stock.StockStep | internal/db/products_repo.go:24-53 | every step keeps the stock ledger balanced |
| Stock.ExactStock | internal/db/products_repo.go:24-53 | the balanced ledger in terms of orders that hold a unit and units given back in surplus |
| Stripe.ChargeSound | internal/stripeclient/client.go:45-51 | a keyed charge, new or replayed, keeps keys, intents and money entries in agreement |
| Stripe.RefundSound | internal/stripeclient/client.go:62-67 | a keyed refund, new or replayed, keeps keys, intents and money entries in agreement |
| Stripe.MoneyConserved | internal/stripeclient/client.go:31-72 | after any sequence of charge and refund calls, repeated and mixed in any order, each order has at most one intent, its net is zero if refunded and its amount if not, and the account holds their sum |
| Anomalies.ChargedButFailed | payment-service/handler.go:107-122 | a run in which payment.failed is announced while Stripe holds the money |
| Anomalies.CancelledUnrecorded | internal/db/payments_repo.go:69-74 | a run in which a cancelled order has no payments row, its order.created is handled, and Stripe holds the money |
| Anomalies.LandsAfterCancel | payment-service/handler.go:80-97 | a run in which a session is lost with the charge on its way, the cancel commits without a row and with nothing at Stripe, and then the charge lands |
| Anomalies.BothOutcomes | internal/db/payments_repo.go:46-63 | a run in which a later failure webhook overwrites a succeeded payment and both outcomes are announced |
| Anomalies.CancelledButKept | payment-service/handler.go:185-194 | a run in which a cancelled order announced as paid is not refunded |
| Anomalies.RestockedTwice | inventory-service/handler.go:143-148 | a run in which an order that took nothing is restocked twice and the stock exceeds its opening |
| Anomalies.StaleAnswer | inventory-service/handler.go:92-107 | a run in which inventory.failed is committed with a unit in stock |
| Realization.Do | payment-service/handler.go:52-200 | any action of the atomic saga, with an answer the code can get, is taken by some continuation of any run, statement by statement, even between the statements of others |
| Realization.HistoryRuns | payment-service/webhook.go:83-151 | every history of such actions is what some run of the statement-level system does to tables, Stripe and log |
| Delivery.DeliveryCount | internal/outbox/relay.go:58-95 | for any concurrent relays, a row occurs in the Kafka log once if it is published and its acknowledged write landed, plus once per write by a pass that did not commit its mark |
| Delivery.LogIsTraced | internal/db/outbox_repo.go:55-97 | every message is that of a stored row, live claims never overlap, and a published row is missing from the log exactly if the write behind its mark never landed and no other pass wrote it |
| Delivery.PublishedButMissing | internal/outbox/relay.go:24-34 | a run of one relay in which a row is published and nothing is in the log |
| Delivery.NothingLost | internal/outbox/relay.go:24-34 | if every write taken for done has landed, no published row is lost |
| Delivery.StepKeeps | internal/outbox/relay.go:66-94 | insert, claim, write, commit and loss of any pass keep claims, marks and message counts in agreement |
| Pipeline.RelayStepIsPublish | internal/outbox/relay.go:82-90 | in the system of services and relays together, a relay step is the publication of a stored event or invisible to the services |
| Pipeline.ServiceStep | internal/db/outbox_repo.go:32-53 | every step of the services has its place there, storing a new row for the event it adds, if any |
| Pipeline.ServicesRun | internal/outbox/relay.go:58-95 | what the services do there they do in a run of their own, so every guarantee about their runs holds there |
| Pipeline.EventDelivery | internal/outbox/relay.go:58-95 | what can trigger a handler is exactly what some message carries, and was stored; an event stored once is sent once if published and not lost, plus once per write by a pass that did not commit its mark |
| Relay.Relay.FetchAndClaimUnpublished | internal/db/outbox_repo.go:62-89 | the claim is the oldest unpublished rows not locked by others, in order, as many as fit a batch |
| Relay.Relay.PublishPending | internal/outbox/relay.go:58-95 | one pass, whatever fails in it, is a stretch of steps of the concurrent relays over the oldest free batch; exactly the messages whose write landed are in the log, in order; if no mark failed and the commit went through exactly the rows whose write reported success are published, else none |
| Relay.Relay.Drain | internal/outbox/relay.go:31-51 | after k undisturbed passes over n rows max(0, n - 100k) are left, none exactly if k is at least n/100 rounded up, and each row that got published was written exactly once |
| Consumer.RedeliveredIff | internal/kafka/consumer.go:48-55 | a message of a session comes again after a restart if and only if neither its offset nor any later one was committed |
| Consumer.SkippedForGood | internal/kafka/consumer.go:48-51 | once a later message of its session is committed, a failed message is never fetched again, in any later session after any number of restarts |
| Consumer.FailedAndSkipped | internal/kafka/consumer.go:48-55 | two sessions in which a failed message is followed by a committed one and does not come again |
| Consumer.ResumePastHandled | internal/kafka/consumer.go:44-55 | while every offset commit gets through, the group resumes right after the last message it has handled without error |
| Consumer.Consumer.HandleNext | internal/kafka/consumer.go:38-56 | delivers the message at the position once; requests the commit of its offset exactly if that went well; moves on either way |
| Consumer.Consumer.Run | internal/kafka/consumer.go:35-57 | each round is a failed fetch or one delivery of the next message, in order; the offset to resume from is one past the last one committed, and unless a commit got lost one past the last message handled without error; every such message is marked as processed and stays so |
| Resilience.OutageLoad | internal/resilientstripe/client.go:41-63 | while Stripe fails every call, at most 20 calls plus 4 for each full 30 seconds since the breaker first opened |
| Resilience.SequentialUse | internal/resilientstripe/client.go:47-63 | a caller that ends each call before the next is never told "too many requests" and leaves the breaker closed or open |
| Resilience.BreakerIsCircuit | internal/resilientstripe/client.go:47-62 | after any uses one after the other, with any outcomes, the breaker is open exactly while the circuit is tripped: at the fifth failure in a row, for 30 seconds; then one trial shuts it with a clean record or trips it again; its count is the length of the current run of failures |
| Resilience.RefusedWhileTripped | internal/resilientstripe/client.go:70-90 | so a sequential caller is turned away exactly while the circuit is tripped, and never asked to wait for a trial |
| Resilience.OpenStays | internal/resilientstripe/client.go:47-62 | an open breaker stays open until its timeout has passed, however late the sequences let in before report back |
| Resilience.TrialDecides | internal/resilientstripe/client.go:47-62 | a half open breaker is moved by its own trial only, whoever else comes or reports back |
| Resilience.RefusedExactly | internal/resilientstripe/client.go:47-62 | however many callers come and go, one is told "too many requests" if and only if the breaker is half open and its one trial has not reported back |
| Resilience.RefusedOnce | internal/resilientstripe/client.go:47-62 | a history from a new breaker in which a caller is refused that way |
| Resilience.Client.TryCharge | internal/resilientstripe/client.go:72-81 | one to four requests for this order and amount; the first reply that names an intent ends the sequence and is returned, and none is returned only after four replies without one; Stripe's ledger is as before or has this one charge |
| Resilience.Client.TryRefund | internal/resilientstripe/client.go:97-106 | one to four requests for this intent; the first success ends the sequence, and failure means four without one; Stripe's ledger is as before or has this one refund |
| Resilience.Client.CreateAndConfirmPaymentIntent | internal/resilientstripe/client.go:70-90 | refused without a request exactly while the circuit is tripped; otherwise one whole sequence, whose last reply is the answer, and which the circuit sees as one use with that outcome |
| Resilience.Client.RefundPaymentIntent | internal/resilientstripe/client.go:95-115 | the same for refunds on their own circuit; success means that Stripe has the refund |
| Services.PaymentService.HandleOrderCreated | payment-service/handler.go:52-141 | commits the handler's tables or nothing; goes to Stripe exactly for a first delivery of an order not cancelled, unless the circuit is tripped or a statement failed before; the answer it records is that of the requests: an intent, or a failure after four replies without one; it fails exactly if a statement failed, the circuit was tripped or the row clashes, and a tripped circuit leaves no trace |
| Services.PaymentService.HandleOrderCancelled | payment-service/handler.go:154-200 | commits the handler's tables or nothing; goes to Stripe exactly for a first cancel of a succeeded payment, unless the circuit is tripped or a statement failed before; it fails exactly if a statement failed or that refund was refused or got four replies without success; on success Stripe has the refund |
| Services.PaymentService.HandleStripeWebhook | payment-service/webhook.go:83-151 | commits the handler's tables or nothing; goes to Stripe exactly for a first success of a cancelled order, unless the circuit is tripped or a statement failed before; it fails exactly if a statement failed or that refund was refused or got four replies without success; on success Stripe has the refund |
| Services.PaymentService.Refund | payment-service/refund.go:34-42 | Stripe first, then the row, then the event; an error exactly if a statement failed or the refund was not made, and then the transaction is still open and, for the caller's rollback, only Stripe may have changed |
| Services.ServesKeeps | payment-service/handler.go:52-200 | whatever a handler method did to the tables and at Stripe, the saga invariant holds |
| Scripts.ScriptedFollows | payment-service/webhook.go:83-151 | the trail of statements and replies of every handler method, cut short anywhere, is one the step layer can take while nobody else commits |
| Inventory.InventoryService.HandleOrderCreated | inventory-service/handler.go:63-109 | commits the handler's tables, or nothing; fails exactly if a statement failed; in stock exactly if the product is known and some is left |
| Inventory.InventoryService.HandleCompensation | inventory-service/handler.go:116-159 | commits one unit back and one event per (order, event type), or nothing; fails exactly if a statement failed |
| Orders.OrderService.CreateOrder | order-service/handlers.go:46-98 | rejects exactly the invalid requests; otherwise stores a pending order under an id no order has, together with its event, unless a statement failed; that leaves nothing, or the whole order when only the commit's reply was lost |
| Orders.OrderService.CancelOrder | order-service/handlers.go:120-174 | an internal error exactly if a statement failed, else not found, conflict or cancelled by the order's presence and status; cancels together with its event, or nothing |
| Deployment.Deployment.Deliver | payment-service/handler.go:52-200 | any delivery, in any order and any number of times, keeps the saga invariant, takes nothing back and keeps no payment for a cancelled order; its own handler ran on its own data, asked Stripe exactly for what was due and failed exactly if a statement did or that was not settled; a handled webhook has set its row to failed, refunded or succeeded and announced it, once |
| Database.Database.UpdateStatusByIntentID | internal/db/payments_repo.go:46-63 | sets the status of the one row with that intent and names its order and product, or finds none |
| Database.Database.CreatePayment | internal/db/payments_repo.go:31-40 | adds the row, and fails on a second row for the order or for the intent |
| Database.Database.DeductStock | internal/db/products_repo.go:24-38 | takes one unit of a product that has some, and otherwise changes nothing and says so |
| Database.Database.MarkProcessed | internal/db/processed_events_repo.go:24-35 | reports new exactly if the key was not there, and leaves it there |
| Database.Database.CreateOrder | internal/db/orders_repo.go:28-47 | stores the row under a generated id that no order has |
| Database.Database.CancelPending | internal/db/orders_repo.go:58-75 | cancels exactly a pending order and returns it |

## Left out

- HTTP parsing, JSON, webhook signatures and ignored event types, logging, process wiring and health checks.
- Context cancellation and shutdown: a cancelled context is one of the failures that may strike any statement.
- user_id beyond its validation, timestamps other than the order of outbox rows, schema_version, topics and partition keys other than as event type and order.
- Order statuses paid and failed, which nothing writes.
- The internals of the circuit breaker, the retry library, the database driver and the Kafka client, including retries and batching inside the Kafka writer: one write is at most one message.
- Which delay precedes which attempt: time only has to pass. Breaker time is a real number.
- A charge that Stripe accepts and later declines: the ledger counts a landed create-and-confirm as money held until refunded. Row status and events follow the webhooks.
- That every charge is recorded in the end: a webhook that finds no row is acknowledged and forgotten, so refunds are stated for payments that were recorded.
- That deliveries happen at all: `Later` and `Inv` are safety statements.
- Event order: failed writes are skipped inside a batch, and relays may publish one order's rows in either order.
- Services.PaymentService.HandleOrderCreated: the class runs one transaction at a time; interleaving is the step layer's, which the same statements follow.
- Orders.OrderService.CancelOrder: for the same reason the losing side of a race between the pre-check and the update is taken only in the step layer.
- Services.PaymentService.HandleStripeWebhook: the shared refund breaker is used by one caller at a time here, so its too-many-requests refusal does not occur; in the step layer any refund call may be refused.
- Scripts.ScriptedFollows: on tables nobody else commits to meanwhile, because a handler class runs alone; what others may commit in between is the step layer's, where `Realization.Do` takes the same trails between the statements of others.
- Consumer.Consumer.Run: the partition holds the messages present at the start; new ones arriving during a session and partition rebalancing are not modelled.
- Relay.Relay.FetchAndClaimUnpublished: the oldest-first choice is exact for one relay at a time; with others at work the step layer leaves open which free rows a claim gets.
- Handler bodies are spread over two or three methods, so that the deferred rollback can run after every return and each proof stays short.
