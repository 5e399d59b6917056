# Order and returns lifecycle with an idempotent job ledger

This project is a Dafny model of the core of a retail back office. The back
office does four things:

- It moves purchase orders through a fixed lifecycle:
  PENDING_PAYMENT, PAID, PROCESSING_IN_WAREHOUSE, SHIPPED, DELIVERED, CANCELLED.
- It moves returns of delivered orders through their own lifecycle:
  REQUESTED, APPROVED, REJECTED, IN_TRANSIT, RECEIVED, COMPLETED, CANCELLED.
- It keeps an append-only history of accepted order transitions.
- It hands side effects to asynchronous jobs. Shipping an order publishes an
  invoice job. Completing a return through the API publishes a refund job.

The job ledger is what makes the jobs safe to redeliver. Each published job
gets one ledger row. The publisher saves the row PENDING and then sends its
message. For a refund job the row is committed before the send. For an
invoice job the save only joins the enclosing order transaction, which
commits after the send (see the last point below). The two consumers check
that row before they act and record the outcome on it afterwards.

The model layout:

- **Status tables.** `order_status.dfy` and `return_status.dfy` hold the two
  transition tables, as datatypes and pure predicates. The lemmas are about
  terminal states, one-step successors, reachability and the absence of
  cycles other than self-loops.
- **Store.** `store.dfy` models the repositories as maps keyed by id, inside
  one `Store` class. The order history, return history and message broker are
  append-only sequences. Ghost sequences log every call made to the invoice
  renderer and to the refund gateway.
- **Store invariant.** `ConsistentState` is the invariant that every
  operation preserves:
  - every repository is keyed by the row's own id;
  - each order's history is a legal chain that ends at its current status;
  - no return history is written;
  - every link resolves;
  - every ledger row is well formed;
  - every message on the broker announces a recorded job.
- **`JobLog` entity.** `job_log.dfy` is a class whose setters each overwrite
  one field. The ledger stores snapshots of it, written by `SaveJob`.
- **Services.** The services (`order_service.dfy`, `return_service.dfy`,
  `job_publisher.dfy`) are imperative methods on the store.
- **Consumers.** Each consumer (`invoice_listener.dfy`, `refund_listener.dfy`)
  is a method proved against a pure function for one delivery. Further lemmas
  cover repeated deliveries: at most one successful side effect per recorded
  job, and the same idempotency key on every gateway retry.
- **Fresh ids and collaborators.** `UUID.randomUUID()` becomes an id
  parameter that must not be in use yet. The PDF renderer and the refund
  gateway become outcome parameters.

The model follows the code where the code differs from the system's design
description:

- The design says a consumer increments the attempt counter. The code never
  does, so every ledger row keeps `attempts == 0` (`Repositories.RowWellFormed`).
- The design says every accepted return transition writes a history row.
  `changeReturnStatus` writes none, so `returnHistory` stays empty.
- The design describes refund completion as a return transition.
  `RefundListener` sets the return to COMPLETED directly, without the
  transition table and without history. A CANCELLED or REJECTED return is
  therefore completed too (`RefundListener.RefundBypassesReturnTable`).
- The design says a redelivered message causes exactly one side effect.
  The invoice consumer still renders when the job has no ledger row, and it
  renders again after a crash that left the row IN_PROGRESS. The model proves
  at most one successful render per recorded job, and an unguarded render on
  every delivery of an unrecorded one.
- Re-applying SHIPPED to a shipped order is a permitted self-transition, and
  it publishes a second invoice job.
- Re-applying COMPLETED to a completed return through the API publishes a
  second refund job.
- The design says the invoice job is published after the SHIPPED transition
  commits. The code publishes inside `changeOrderStatus`'s transaction
  (OrderService.java:38 and :56), and the publisher has no transaction of its
  own, so the message is sent before the ledger row and the new status are
  committed. If that commit then fails, the message survives with no row, and
  the invoice consumer renders an invoice for an order that never shipped.
  The model treats the whole call as one atomic step, so this case is outside
  it (see "## Left out").

## Model

| member | source | states |
|---|---|---|
| OrderStatuses.CanTransitionTo | src/main/java/com/example/ordermanagement/domain/OrderStatus.java:11-21 | every status may be re-applied to itself, and every other permitted edge moves to a later enum constant |
| OrderStatuses.IsTerminal | src/main/java/com/example/ordermanagement/domain/OrderStatus.java:11-21 | a status is terminal exactly when the table permits it no target other than itself |
| OrderStatuses.Successors | src/main/java/com/example/ordermanagement/domain/OrderStatus.java:14-19 | the row-by-row table (PENDING_PAYMENT to PAID or CANCELLED, PAID to PROCESSING_IN_WAREHOUSE or CANCELLED, then SHIPPED, then DELIVERED) holds exactly the non-self edges `canTransitionTo` permits |
| OrderStatuses.CancellableExactlyBeforeWarehouse | src/main/java/com/example/ordermanagement/domain/OrderStatus.java:14-17 | an order can be cancelled exactly while it is PENDING_PAYMENT or PAID |
| OrderStatuses.TerminalOrderStatuses | src/main/java/com/example/ordermanagement/domain/OrderStatus.java:18-19 | DELIVERED and CANCELLED are the terminal statuses, and the only ones |
| OrderStatuses.DeliveredCannotBeReshipped | src/test/java/com/example/ordermanagement/service/OrderServiceTest.java:41-45 | DELIVERED to SHIPPED is not permitted |
| OrderStatuses.PathOrdinalsMonotone | src/main/java/com/example/ordermanagement/domain/OrderStatus.java:4-20 | along any chain of permitted transitions the enum position never decreases |
| OrderStatuses.PathReturningIsConstant | src/main/java/com/example/ordermanagement/domain/OrderStatus.java:4-20 | a chain that comes back to a status made only self-transitions in between |
| OrderStatuses.ReachableAntisymmetric | src/main/java/com/example/ordermanagement/domain/OrderStatus.java:4-20 | two statuses that are reachable from each other are equal, so the only cycles are self-loops |
| OrderStatuses.TerminalIsAbsorbing | src/main/java/com/example/ordermanagement/domain/OrderStatus.java:18-19 | once a chain reaches a terminal status it stays there |
| OrderStatuses.EveryStatusReachableFromPendingPayment | src/main/java/com/example/ordermanagement/domain/OrderStatus.java:14-17 | every status is reachable from the initial PENDING_PAYMENT |
| ReturnStatuses.CanTransitionTo | src/main/java/com/example/ordermanagement/domain/ReturnStatus.java:12-23 | every return status may be re-applied to itself, and every other permitted edge moves to a later enum constant |
| ReturnStatuses.IsTerminal | src/main/java/com/example/ordermanagement/domain/ReturnStatus.java:12-23 | a return status is terminal exactly when the table permits it no target other than itself |
| ReturnStatuses.Successors | src/main/java/com/example/ordermanagement/domain/ReturnStatus.java:15-21 | the row-by-row table (REQUESTED to APPROVED, REJECTED or CANCELLED; APPROVED to IN_TRANSIT; IN_TRANSIT to RECEIVED; RECEIVED to COMPLETED; CANCELLED from each open status) holds exactly the non-self edges `canTransitionTo` permits |
| ReturnStatuses.CancellableExactlyWhenOpen | src/main/java/com/example/ordermanagement/domain/ReturnStatus.java:15-18 | CANCELLED is one step from exactly the non-terminal statuses |
| ReturnStatuses.CompletedOnlyFromReceived | src/main/java/com/example/ordermanagement/domain/ReturnStatus.java:14-22 | apart from re-applying it, COMPLETED is entered only from RECEIVED |
| ReturnStatuses.TerminalReturnStatuses | src/main/java/com/example/ordermanagement/domain/ReturnStatus.java:19-21 | COMPLETED, REJECTED and CANCELLED are the terminal statuses, and the only ones |
| ReturnStatuses.PathOrdinalsMonotone | src/main/java/com/example/ordermanagement/domain/ReturnStatus.java:4-22 | along any chain of permitted transitions the enum position never decreases |
| ReturnStatuses.ReachableAntisymmetric | src/main/java/com/example/ordermanagement/domain/ReturnStatus.java:4-22 | two statuses that are reachable from each other are equal, so the only cycles are self-loops |
| ReturnStatuses.TerminalIsAbsorbing | src/main/java/com/example/ordermanagement/domain/ReturnStatus.java:19-21 | once a chain reaches a terminal status it stays there |
| ReturnStatuses.CompletionPassesThroughReceived | src/main/java/com/example/ordermanagement/domain/ReturnStatus.java:14-22 | every chain of permitted transitions that ends in COMPLETED, from another status, visits RECEIVED |
| ReturnStatuses.TerminalsReachableFromRequested | src/main/java/com/example/ordermanagement/domain/ReturnStatus.java:15-18 | COMPLETED, REJECTED and CANCELLED are each reachable from REQUESTED |
| Decimal.DecimalString | src/main/java/com/example/ordermanagement/listener/InvoiceListener.java:54 | the decimal text of a byte count is non-empty, all digits, and has no leading zero |
| Decimal.DecimalRoundTrip | src/main/java/com/example/ordermanagement/listener/InvoiceListener.java:54 | parsing the decimal text of a count gives back the count |
| Decimal.DecimalInjective | src/main/java/com/example/ordermanagement/listener/InvoiceListener.java:54 | distinct counts have distinct decimal texts |
| JobLogs.JobLog.constructor | src/main/java/com/example/ordermanagement/domain/JobLog.java:50-60 | stores id, job type, related order, related return, idempotency key and status as given; attempts is 0; error and result are null |
| JobLogs.JobLog.Load | src/main/java/com/example/ordermanagement/listener/InvoiceListener.java:37 | a loaded entity holds exactly the persisted row |
| JobLogs.JobLog.SetStatus | src/main/java/com/example/ordermanagement/domain/JobLog.java:108-111 | changes the status and no other persisted field |
| JobLogs.JobLog.SetAttempts | src/main/java/com/example/ordermanagement/domain/JobLog.java:117-119 | changes the attempt counter and no other field |
| JobLogs.JobLog.SetLastError | src/main/java/com/example/ordermanagement/domain/JobLog.java:125-127 | changes the last error and no other field |
| JobLogs.JobLog.SetResultMeta | src/main/java/com/example/ordermanagement/domain/JobLog.java:133-135 | changes the result note and no other field |
| Repositories.Store.FindJob | src/main/java/com/example/ordermanagement/listener/RefundListener.java:39 | returns null exactly when the ledger has no row under the id, otherwise a fresh entity holding that row |
| Repositories.Store.SaveJob | src/main/java/com/example/ordermanagement/service/JobPublisherService.java:26 | the ledger maps the entity's id to its current state, and nothing else changes |
| Repositories.Store.Send | src/main/java/com/example/ordermanagement/service/JobPublisherService.java:29 | exactly one message is appended to the broker |
| Repositories.RowRewritePreservesLedger | src/main/java/com/example/ordermanagement/listener/RefundListener.java:50-86 | rewriting a row's status, error or result, without touching its identity, keeps every ledger invariant |
| OrderHistories.HistoryOf | src/main/java/com/example/ordermanagement/service/OrderService.java:49-50 | an order's history is no longer than the log and every row in it names that order |
| OrderHistories.HistoryOfAppend | src/main/java/com/example/ordermanagement/service/OrderService.java:49-50 | appending a row extends exactly the history of the order it names |
| OrderHistories.HistoryOfAbsent | src/main/java/com/example/ordermanagement/service/OrderService.java:33 | an order no row names has an empty history |
| OrderHistories.CreationPreservesTracking | src/main/java/com/example/ordermanagement/service/OrderService.java:30-34 | a new PENDING_PAYMENT order with its null-to-PENDING_PAYMENT row keeps every order's history tracking its status |
| OrderHistories.TransitionPreservesTracking | src/main/java/com/example/ordermanagement/service/OrderService.java:49-52 | recording a permitted transition and setting the status to its target keeps every order's history tracking its status |
| OrderHistories.TracksAfterAppend | src/main/java/com/example/ordermanagement/service/OrderService.java:49-52 | appending a row changes only the history of the order it names |
| OrderHistories.TracksAfterStep | src/main/java/com/example/ordermanagement/service/OrderService.java:49-52 | one permitted step, with its row appended, keeps an order's history tracking its status |
| OrderHistories.ChainExtend | src/main/java/com/example/ordermanagement/service/OrderService.java:49-50 | a row leaving the last target by a permitted edge extends a legal chain |
| OrderHistories.HistoryIsLegalLifecycle | src/main/java/com/example/ordermanagement/service/OrderService.java:39-60 | a stored order has a status reachable from PENDING_PAYMENT, and its recorded statuses never move back in the lifecycle |
| JobPublisher.InvoiceJobRow | src/main/java/com/example/ordermanagement/service/JobPublisherService.java:24-26 | the invoice row has the job id, INVOICE_GENERATION, the order id, no return, the id's text as key, PENDING, 0 attempts, and is well formed |
| JobPublisher.InvoiceMessage | src/main/java/com/example/ordermanagement/service/JobPublisherService.java:28-30 | the invoice message goes to the jobs exchange with the invoice routing key and announces the invoice row, carrying the job id, order id and customer email |
| JobPublisher.RefundJobRow | src/main/java/com/example/ordermanagement/service/JobPublisherService.java:34-36 | the refund row has the job id, REFUND_PROCESSING, the return's order, the return id, the id's text as key, PENDING, and is well formed |
| JobPublisher.RefundMessage | src/main/java/com/example/ordermanagement/service/JobPublisherService.java:38-40 | the refund message announces the refund row, carrying job id, order id, return id, payment reference and currency |
| JobPublisher.PublishPreservesLedger | src/main/java/com/example/ordermanagement/service/JobPublisherService.java:23-41 | inserting a fresh well-formed row and then its announcing message keeps the ledger keyed, well formed and linked, and every message announcing a recorded job |
| JobPublisher.PublishPreservesConsistency | src/main/java/com/example/ordermanagement/service/JobPublisherService.java:23-41 | the same over the whole store |
| JobPublisher.PublishInvoiceJob | src/main/java/com/example/ordermanagement/service/JobPublisherService.java:23-31 | inserts exactly the invoice row, leaves existing rows unchanged, appends exactly its message, returns the job id, and keeps the store consistent |
| JobPublisher.PublishRefundJob | src/main/java/com/example/ordermanagement/service/JobPublisherService.java:33-41 | inserts exactly the refund row, leaves existing rows unchanged, appends exactly its message, returns the job id, and keeps the store consistent |
| OrderService.EffectiveStatus | src/main/java/com/example/ordermanagement/service/OrderService.java:41-44 | a null stored status counts as PENDING_PAYMENT |
| OrderService.CreateOrder | src/main/java/com/example/ordermanagement/service/OrderService.java:29-36 | stores a PENDING_PAYMENT order, appends exactly one null-to-PENDING_PAYMENT row by "system" with reason "order created", and keeps the store consistent |
| OrderService.CreationPreservesConsistency | src/main/java/com/example/ordermanagement/service/OrderService.java:29-36 | creation keeps the whole store consistent |
| OrderService.TransitionPreservesConsistency | src/main/java/com/example/ordermanagement/service/OrderService.java:49-52 | a permitted transition with its history row keeps the whole store consistent |
| OrderService.ChangeOrderStatus | src/main/java/com/example/ordermanagement/service/OrderService.java:39-60 | an unknown id fails with nothing changed; a rejected edge from the effective status fails with nothing changed; otherwise exactly one row (effective old status, target, actor, reason) is appended, only that order's status changes, and an invoice job is published exactly when the target is SHIPPED; consistency is kept |
| OrderService.FindById | src/main/java/com/example/ordermanagement/service/OrderService.java:62-64 | returns the stored order with that id exactly when one exists |
| ReturnService.AddReturnPreservesConsistency | src/main/java/com/example/ordermanagement/service/ReturnService.java:30-32 | adding a return of a stored order keeps the store consistent |
| ReturnService.ReturnStatusUpdatePreservesConsistency | src/main/java/com/example/ordermanagement/service/ReturnService.java:40-41 | rewriting a stored return's status keeps the store consistent |
| ReturnService.CreateReturn | src/main/java/com/example/ordermanagement/service/ReturnService.java:23-33 | an unknown order fails with nothing created; an order whose status is not DELIVERED (null included) fails with nothing created; otherwise exactly one REQUESTED return of that order is added |
| ReturnService.ChangeReturnStatus | src/main/java/com/example/ordermanagement/service/ReturnService.java:36-43 | an unknown id fails and a rejected edge fails, each with nothing changed; otherwise only that return's status changes and no history row is written |
| ReturnController.ChangeStatus | src/main/java/com/example/ordermanagement/controller/ReturnController.java:34-44 | changes the return's status as actor "api" with reason "manual", and publishes a refund job with reference "ORIG-PAYMENT-REF" and currency "USD" exactly when the change succeeds with target COMPLETED, including COMPLETED to COMPLETED |
| InvoiceListener.PdfBytesMeta | src/main/java/com/example/ordermanagement/listener/InvoiceListener.java:54 | the result note is "pdfBytes=" followed by digits that parse back to the byte count |
| InvoiceListener.AfterRender | src/main/java/com/example/ordermanagement/listener/InvoiceListener.java:51-63 | the row's identity is kept; it is SUCCESS with the byte-count note exactly when the PDF was produced, FAILED with the message exactly on an I/O error, and left IN_PROGRESS exactly when the renderer threw anything else |
| InvoiceListener.InvoiceDelivery | src/main/java/com/example/ordermanagement/listener/InvoiceListener.java:37-63 | no row is added or removed, rows of other jobs are unchanged, the job's identity is kept, and the renderer runs exactly when the job has no row or its row is not SUCCESS |
| InvoiceListener.CompletedInvoiceIsSkipped | src/main/java/com/example/ordermanagement/listener/InvoiceListener.java:38-42 | a SUCCESS job is neither rendered nor changed |
| InvoiceListener.RedeliveryAfterSuccessIsNoop | src/main/java/com/example/ordermanagement/listener/InvoiceListener.java:38-55 | after a successful render of a recorded job, a second delivery renders nothing and changes nothing |
| InvoiceListener.FailedInvoiceIsRetried | src/main/java/com/example/ordermanagement/listener/InvoiceListener.java:38-63 | after an I/O failure or a crash the next delivery renders again |
| InvoiceListener.RecordedInvoiceRenderedAtMostOnce | src/main/java/com/example/ordermanagement/listener/InvoiceListener.java:37-56 | over any series of deliveries a recorded job's invoice is produced at most once, and never again once it is SUCCESS |
| InvoiceListener.UnrecordedInvoiceRenderedEveryTime | src/main/java/com/example/ordermanagement/listener/InvoiceListener.java:37-56 | for a job with no row, every delivery whose render succeeds produces another invoice |
| InvoiceListener.BrokerInvoiceMatchesRow | src/main/java/com/example/ordermanagement/service/JobPublisherService.java:24-30 | an invoice message on the broker names a recorded INVOICE_GENERATION job for the same order |
| InvoiceListener.DeliveryPreservesConsistency | src/main/java/com/example/ordermanagement/listener/InvoiceListener.java:44-63 | one delivery keeps the store consistent |
| InvoiceListener.RecordRender | src/main/java/com/example/ordermanagement/listener/InvoiceListener.java:51-63 | the setters applied after rendering turn an IN_PROGRESS entity into the row `AfterRender` describes |
| InvoiceListener.RenderRecorded | src/main/java/com/example/ordermanagement/listener/InvoiceListener.java:44-63 | for an open row: the ledger ends with `AfterRender` of the row, and exactly one render call is made |
| InvoiceListener.HandleInvoice | src/main/java/com/example/ordermanagement/listener/InvoiceListener.java:31-70 | the ledger and render calls change exactly as one `InvoiceDelivery` says, nothing else changes, and consistency is kept |
| RefundListener.ReturnNotFoundMessage | src/main/java/com/example/ordermanagement/listener/RefundListener.java:57 | the error is "ReturnRequest not found: " followed by the return id's text |
| RefundListener.AfterGateway | src/main/java/com/example/ordermanagement/listener/RefundListener.java:70-84 | the row's identity is kept; it is SUCCESS with "gatewayRef=" and the reference exactly when the gateway accepted, and FAILED with the gateway's or exception's message otherwise |
| RefundListener.RefundDelivery | src/main/java/com/example/ordermanagement/listener/RefundListener.java:37-87 | no row or return is added or removed; other jobs and other returns are unchanged; the job's identity is kept; the gateway is called (once) exactly when the job is open and its return is stored |
| RefundListener.ClosedRefundIsSkipped | src/main/java/com/example/ordermanagement/listener/RefundListener.java:39-48 | an unknown job and a SUCCESS job change nothing and call nothing |
| RefundListener.MissingReturnFailsJob | src/main/java/com/example/ordermanagement/listener/RefundListener.java:54-60 | a missing return makes the job FAILED with the not-found message, leaves returns unchanged and calls nothing |
| RefundListener.GatewayRequest | src/main/java/com/example/ordermanagement/listener/RefundListener.java:63-67 | the request carries the message's payment reference and currency, an amount of 0 cents, and, for a well-formed row, the job id's text as its idempotency key |
| RefundListener.GatewayRequestCarriesJobKey | src/main/java/com/example/ordermanagement/listener/RefundListener.java:63-67 | the gateway request carries the message's reference and currency, the job id's text as idempotency key, and 0 cents |
| RefundListener.ReturnCompletedExactlyOnGatewaySuccess | src/main/java/com/example/ordermanagement/listener/RefundListener.java:70-79 | a stored, not yet completed return becomes COMPLETED exactly when its job was open and the gateway accepted, and otherwise is unchanged |
| RefundListener.RefundBypassesReturnTable | src/main/java/com/example/ordermanagement/listener/RefundListener.java:72-76 | a CANCELLED or REJECTED return, which the table forbids to complete, is completed by an accepted refund |
| RefundListener.RefundRedeliveryAfterSuccessIsNoop | src/main/java/com/example/ordermanagement/listener/RefundListener.java:45-48 | after an accepted refund, a second delivery calls nothing and changes nothing |
| RefundListener.FailedRefundIsRetried | src/main/java/com/example/ordermanagement/listener/RefundListener.java:77-84 | after a declined or failed call the next delivery calls the gateway again |
| RefundListener.RefundAcceptedAtMostOnce | src/main/java/com/example/ordermanagement/listener/RefundListener.java:45-76 | over any series of deliveries at most one refund of a job is accepted, and none once its row is SUCCESS |
| RefundListener.RetriesShareIdempotencyKey | src/main/java/com/example/ordermanagement/listener/RefundListener.java:63-67 | every gateway call for a job, over any series of deliveries, carries the job id's text as idempotency key; an unknown job is never sent to the gateway |
| RefundListener.BrokerRefundFindsItsReturn | src/main/java/com/example/ordermanagement/listener/RefundListener.java:54-55 | a refund message on the broker of a consistent store names a recorded job whose return is that message's return and is stored |
| RefundListener.DeliveryPreservesConsistency | src/main/java/com/example/ordermanagement/listener/RefundListener.java:50-86 | one delivery keeps the store consistent |
| RefundListener.RecordGateway | src/main/java/com/example/ordermanagement/listener/RefundListener.java:70-84 | the setters applied after the gateway call produce the row `AfterGateway` describes |
| RefundListener.CallGateway | src/main/java/com/example/ordermanagement/listener/RefundListener.java:62-86 | exactly one gateway request is made, the row becomes `AfterGateway` of the row, and the return is COMPLETED exactly on acceptance |
| RefundListener.FailMissingReturn | src/main/java/com/example/ordermanagement/listener/RefundListener.java:55-59 | a job whose return is missing is saved FAILED with the not-found message and nothing else in it changes |
| RefundListener.IncomingStatusIsIrrelevant | src/main/java/com/example/ordermanagement/listener/RefundListener.java:63-80 | the gateway request and the recorded outcome are the same whatever status the row had before the call |
| RefundListener.RefundOpenJob | src/main/java/com/example/ordermanagement/listener/RefundListener.java:50-86 | for an open job the ledger, returns and gateway calls end as one `RefundDelivery` says |
| RefundListener.HandleRefund | src/main/java/com/example/ordermanagement/listener/RefundListener.java:37-87 | the ledger, returns and gateway calls change exactly as one `RefundDelivery` says, nothing else changes, and consistency is kept |
| OrderScenarios.CreateAndTransitionToPaid | src/test/java/com/example/ordermanagement/service/OrderServiceTest.java:26-32 | a new order is PENDING_PAYMENT, paying it succeeds with status PAID, and two history rows exist |
| OrderScenarios.Step | src/test/java/com/example/ordermanagement/service/OrderServiceTest.java:38-41 | one permitted transition of the walk sets the status, appends its row under the next unused id, and publishes only on SHIPPED |
| OrderScenarios.WalkToDelivered | src/test/java/com/example/ordermanagement/service/OrderServiceTest.java:36-41 | walking a new order to DELIVERED records five rows and publishes exactly one invoice job |
| OrderScenarios.InvalidTransitionThrows | src/test/java/com/example/ordermanagement/service/OrderServiceTest.java:35-46 | after the walk, shipping again fails with an invalid DELIVERED-to-SHIPPED transition, the order stays DELIVERED, and exactly one message was sent |

## Left out

- Transactions and rollback are not modelled. Each service call and each consumer delivery is one atomic step, and no exception path rolls back.
- The window between sending an invoice message and committing `changeOrderStatus`'s transaction is not modelled. In the code the message goes out before its ledger row commits, so a failed commit leaves a message with no row. The model's send and save happen in one atomic step, so `Repositories.MessagesPublished` and `InvoiceListener.BrokerInvoiceMatchesRow` hold only for runs whose transactions commit. Refund jobs are not affected, because `ReturnController` has no enclosing transaction and the row is committed before the send.
- The optimistic-lock version columns are not modelled. Concurrent deliveries and races between service calls are not modelled either. The intermediate IN_PROGRESS save is visible only as part of the final state.
- Timestamps (`createdAt`, `updatedAt`, `changedAt`) are not modelled. `UUID.randomUUID()` is replaced by id parameters that must not be in use yet.
- PDF rendering and file writes are left out. So are the refund gateway's internals, its sleep and its random reference. Each collaborator is an outcome parameter, and each call is logged in a ghost sequence.
- Null messages, null strings and null exception messages are not modelled. Error text and gateway references are always present strings.
- A null `ReturnRequest.status` is not modelled. The return status is never null here, so the NullPointerException path of `changeReturnStatus` is absent.
- The unique constraint on `Order.externalId` is not modelled.
- Amounts are carried as opaque (unscaled, scale) pairs and never computed on.
- The `JobLog` setters the core never calls (`setId`, `setJobType`, `setRelatedOrderId`, `setRelatedReturnId`, `setIdempotencyKey`, `setCreatedAt`, `setUpdatedAt`) are not modelled. The getters are field reads.
- JobLogs.JobLog.SetAttempts: the 32-bit `int` range of the counter is not modelled, because the core never increments it.
- HTTP parsing in the controllers is not modelled. Neither are `OrderController` and the broker's queue bindings. Of `ReturnController`, only the refund trigger is modelled.
- Repository interfaces, Spring wiring, logging, and the container-based integration test are not modelled.
- `JobStatus.java` and `JobType.java` are not part of this model. Their constants are taken from where they are used.
