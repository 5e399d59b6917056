/** The persisted record shapes: orders, return requests, their history rows
    and the job ledger row, with timestamps and version counters dropped. */
module Domain {
  import OS = OrderStatuses
  import RS = ReturnStatuses

  /** A Java reference that may be null. */
  datatype Option<T> = None | Some(value: T)

  /** A UUID, kept as its canonical text (what `UUID.toString()` yields). */
  datatype Uuid = Uuid(text: string)
  {
    function ToString(): string { text }
  }

  /** A `BigDecimal` amount: carried, never computed on. */
  datatype Amount = Amount(unscaled: int, scale: int)

  datatype Order = Order(
    id: Uuid,
    externalId: string,
    customerEmail: string,
    totalAmount: Amount,
    status: Option<OS.OrderStatus>)

  datatype OrderStateHistory = OrderStateHistory(
    id: Uuid,
    orderId: Uuid,
    fromState: Option<OS.OrderStatus>,
    toState: OS.OrderStatus,
    changedBy: string,
    reason: string)

  datatype ReturnRequest = ReturnRequest(
    id: Uuid,
    orderId: Uuid,
    reason: string,
    status: RS.ReturnStatus)

  datatype ReturnStateHistory = ReturnStateHistory(
    id: Uuid,
    returnRequestId: Uuid,
    fromState: RS.ReturnStatus,
    toState: RS.ReturnStatus,
    changedBy: string,
    reason: string)

  datatype JobType = INVOICE_GENERATION | REFUND_PROCESSING

  datatype JobStatus = PENDING | IN_PROGRESS | SUCCESS | FAILED

  /** The persisted state of one `JobLog` entity: what the ledger stores under
      the row's id. */
  datatype JobRow = JobRow(
    id: Uuid,
    jobType: JobType,
    relatedOrderId: Uuid,
    relatedReturnId: Option<Uuid>,
    idempotencyKey: string,
    status: JobStatus,
    attempts: int,
    lastError: Option<string>,
    resultMeta: Option<string>)

  /** The fields fixed when a row is inserted, which no consumer changes. */
  predicate SameIdentity(a: JobRow, b: JobRow)
  {
    && a.id == b.id
    && a.jobType == b.jobType
    && a.relatedOrderId == b.relatedOrderId
    && a.relatedReturnId == b.relatedReturnId
    && a.idempotencyKey == b.idempotencyKey
    && a.attempts == b.attempts
  }

  /** The errors the services raise. `OrderNotFound` and `ReturnNotFound`
      stand for `IllegalArgumentException`, the others for `IllegalStateException`. */
  datatype ServiceError =
    | OrderNotFound(orderId: Uuid)
    | ReturnNotFound(returnId: Uuid)
    | InvalidOrderTransition(from: OS.OrderStatus, to: OS.OrderStatus)
    | InvalidReturnTransition(rfrom: RS.ReturnStatus, rto: RS.ReturnStatus)
    | OrderNotDelivered(deliveredOrderId: Uuid)

  datatype Result<T> = Ok(value: T) | Err(error: ServiceError)
}

/** What travels over the broker, and the boundary of the two external
    collaborators the consumers call (the invoice renderer and the refund gateway). */
module Messaging {
  import opened Domain

  const JOBS_EXCHANGE := "ordermanagement.jobs"
  const INVOICE_ROUTING_KEY := "invoice.generate"
  const REFUND_ROUTING_KEY := "refund.process"

  datatype InvoiceJob = InvoiceJob(jobId: Uuid, orderId: Uuid, customerEmail: string)

  datatype RefundJob = RefundJob(
    jobId: Uuid,
    orderId: Uuid,
    returnId: Uuid,
    paymentReference: string,
    currency: string)

  datatype Payload = InvoicePayload(invoice: InvoiceJob) | RefundPayload(refund: RefundJob)
  {
    function JobId(): Uuid
    {
      match this
      case InvoicePayload(j) => j.jobId
      case RefundPayload(j) => j.jobId
    }
  }

  /** One message sent to the topic exchange. */
  datatype Message = Message(exchange: string, routingKey: string, payload: Payload)

  /** One call of the invoice renderer, with its arguments. */
  datatype RenderCall = RenderCall(orderId: Uuid, customerEmail: string)

  /** What the renderer did: produced a PDF of some length, threw an
      `IOException`, or threw some other exception. */
  datatype RenderOutcome =
    | Rendered(byteCount: nat)
    | RenderIoError(message: string)
    | RenderCrashed

  /** The request handed to the refund gateway. */
  datatype RefundRequest = RefundRequest(
    paymentReference: string,
    idempotencyKey: string,
    currency: string,
    amountCents: int)

  /** What the gateway did: accepted (with its reference), answered with
      `success == false`, or threw. */
  datatype GatewayOutcome =
    | Refunded(gatewayReference: string)
    | Declined(message: string)
    | GatewayRaised(errorMessage: string)
}
