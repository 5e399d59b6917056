/** `JobPublisherService`: records a PENDING ledger row for a new job, then
    sends the one message that announces it. */
module JobPublisher {
  import opened Domain
  import opened Messaging
  import opened JobLogs
  import opened Repositories

  /** The row `publishInvoiceJob` inserts for a new invoice job. */
  function InvoiceJobRow(jobId: Uuid, orderId: Uuid): (r: JobRow)
    ensures RowWellFormed(r) && r.id == jobId && r.relatedOrderId == orderId
    ensures r.jobType == INVOICE_GENERATION && r.status == PENDING
    ensures r.lastError == None && r.resultMeta == None
  {
    JobRow(jobId, INVOICE_GENERATION, orderId, None, jobId.ToString(), PENDING, 0, None, None)
  }

  /** The message `publishInvoiceJob` sends for it. */
  function InvoiceMessage(jobId: Uuid, order: Order): (m: Message)
    ensures Announces(m, InvoiceJobRow(jobId, order.id))
    ensures m.payload == InvoicePayload(InvoiceJob(jobId, order.id, order.customerEmail))
  {
    Message(JOBS_EXCHANGE, INVOICE_ROUTING_KEY, InvoicePayload(InvoiceJob(jobId, order.id, order.customerEmail)))
  }

  /** The row `publishRefundJob` inserts for a new refund job. */
  function RefundJobRow(jobId: Uuid, rr: ReturnRequest): (r: JobRow)
    ensures RowWellFormed(r) && r.id == jobId
    ensures r.relatedOrderId == rr.orderId && r.relatedReturnId == Some(rr.id)
    ensures r.jobType == REFUND_PROCESSING && r.status == PENDING
    ensures r.lastError == None && r.resultMeta == None
  {
    JobRow(jobId, REFUND_PROCESSING, rr.orderId, Some(rr.id), jobId.ToString(), PENDING, 0, None, None)
  }

  /** The message `publishRefundJob` sends for it. */
  function RefundMessage(jobId: Uuid, rr: ReturnRequest, paymentReference: string, currency: string): (m: Message)
    ensures Announces(m, RefundJobRow(jobId, rr))
    ensures m.payload == RefundPayload(RefundJob(jobId, rr.orderId, rr.id, paymentReference, currency))
  {
    Message(JOBS_EXCHANGE, REFUND_ROUTING_KEY,
            RefundPayload(RefundJob(jobId, rr.orderId, rr.id, paymentReference, currency)))
  }

  /** Inserting a fresh well-formed row whose links resolve, and announcing
      it, keeps every ledger invariant. */
  lemma PublishPreservesLedger(
    orders: map<Uuid, Order>, returnRequests: map<Uuid, ReturnRequest>,
    ledger: map<Uuid, JobRow>, broker: seq<Message>, row: JobRow, m: Message)
    requires row.id !in ledger && RowWellFormed(row) && Announces(m, row)
    requires row.relatedOrderId in orders
    requires row.relatedReturnId.Some? ==> row.relatedReturnId.value in returnRequests
    requires LedgerKeyed(ledger) && LedgerWellFormed(ledger)
    requires LinksResolve(orders, returnRequests, ledger) && MessagesPublished(ledger, broker)
    ensures LedgerKeyed(ledger[row.id := row]) && LedgerWellFormed(ledger[row.id := row])
    ensures LinksResolve(orders, returnRequests, ledger[row.id := row])
    ensures MessagesPublished(ledger[row.id := row], broker + [m])
  {
    var ledger', broker' := ledger[row.id := row], broker + [m];
    forall k | 0 <= k < |broker'|
      ensures broker'[k].payload.JobId() in ledger'
      ensures Announces(broker'[k], ledger'[broker'[k].payload.JobId()])
    {
      if k < |broker| {
        assert broker'[k] == broker[k];
        assert Announces(broker[k], ledger[broker[k].payload.JobId()]);
      }
    }
  }

  /** The same, stated over the whole store. */
  lemma PublishPreservesConsistency(
    orders: map<Uuid, Order>, orderHistory: seq<OrderStateHistory>,
    returnRequests: map<Uuid, ReturnRequest>, returnHistory: seq<ReturnStateHistory>,
    ledger: map<Uuid, JobRow>, broker: seq<Message>, row: JobRow, m: Message)
    requires ConsistentState(orders, orderHistory, returnRequests, returnHistory, ledger, broker)
    requires row.id !in ledger && RowWellFormed(row) && Announces(m, row)
    requires row.relatedOrderId in orders
    requires row.relatedReturnId.Some? ==> row.relatedReturnId.value in returnRequests
    ensures ConsistentState(orders, orderHistory, returnRequests, returnHistory,
                            ledger[row.id := row], broker + [m])
  {
    PublishPreservesLedger(orders, returnRequests, ledger, broker, row, m);
  }

  method PublishInvoiceJob(s: Store, order: Order, jobId: Uuid) returns (id: Uuid)
    requires s.Valid() && jobId !in s.ledger
    modifies s
    ensures id == jobId
    ensures s.ledger == old(s.ledger)[jobId := InvoiceJobRow(jobId, order.id)]
    ensures forall j :: j in old(s.ledger) ==> j in s.ledger && s.ledger[j] == old(s.ledger[j])
    ensures s.broker == old(s.broker) + [InvoiceMessage(jobId, order)]
    ensures s.orders == old(s.orders) && s.orderHistory == old(s.orderHistory)
    ensures s.returnRequests == old(s.returnRequests) && s.returnHistory == old(s.returnHistory)
    ensures s.renders == old(s.renders) && s.gatewayCalls == old(s.gatewayCalls)
    ensures s.Valid()
    ensures old(s.Consistent()) && order.id in s.orders ==> s.Consistent()
  {
    ghost var wasConsistent := s.Consistent();
    var job := new JobLog(jobId, INVOICE_GENERATION, order.id, None, jobId.ToString(), PENDING);
    s.SaveJob(job);
    s.Send(JOBS_EXCHANGE, INVOICE_ROUTING_KEY, InvoicePayload(InvoiceJob(jobId, order.id, order.customerEmail)));
    id := jobId;
    if wasConsistent && order.id in s.orders {
      PublishPreservesConsistency(old(s.orders), old(s.orderHistory), old(s.returnRequests),
                                  old(s.returnHistory), old(s.ledger), old(s.broker),
                                  InvoiceJobRow(jobId, order.id), InvoiceMessage(jobId, order));
    }
  }

  method PublishRefundJob(s: Store, rr: ReturnRequest, paymentReference: string, currency: string, jobId: Uuid)
    returns (id: Uuid)
    requires s.Valid() && jobId !in s.ledger
    modifies s
    ensures id == jobId
    ensures s.ledger == old(s.ledger)[jobId := RefundJobRow(jobId, rr)]
    ensures forall j :: j in old(s.ledger) ==> j in s.ledger && s.ledger[j] == old(s.ledger[j])
    ensures s.broker == old(s.broker) + [RefundMessage(jobId, rr, paymentReference, currency)]
    ensures s.orders == old(s.orders) && s.orderHistory == old(s.orderHistory)
    ensures s.returnRequests == old(s.returnRequests) && s.returnHistory == old(s.returnHistory)
    ensures s.renders == old(s.renders) && s.gatewayCalls == old(s.gatewayCalls)
    ensures s.Valid()
    ensures old(s.Consistent()) && rr.id in s.returnRequests && rr.orderId in s.orders ==> s.Consistent()
  {
    ghost var wasConsistent := s.Consistent();
    var job := new JobLog(jobId, REFUND_PROCESSING, rr.orderId, Some(rr.id), jobId.ToString(), PENDING);
    s.SaveJob(job);
    s.Send(JOBS_EXCHANGE, REFUND_ROUTING_KEY,
           RefundPayload(RefundJob(jobId, rr.orderId, rr.id, paymentReference, currency)));
    id := jobId;
    if wasConsistent && rr.id in s.returnRequests && rr.orderId in s.orders {
      PublishPreservesConsistency(old(s.orders), old(s.orderHistory), old(s.returnRequests),
                                  old(s.returnHistory), old(s.ledger), old(s.broker),
                                  RefundJobRow(jobId, rr), RefundMessage(jobId, rr, paymentReference, currency));
    }
  }
}
