/** The persistent state the services and consumers work on: the repositories
    as maps keyed by id, the two history logs as append-only sequences, the
    message broker as an append-only sequence of sent messages, and ghost logs
    of the calls made to the two external collaborators. */
module Repositories {
  import opened Domain
  import opened Messaging
  import opened JobLogs
  import OH = OrderHistories

  predicate OrdersKeyed(orders: map<Uuid, Order>)
  {
    forall id :: id in orders ==> orders[id].id == id
  }

  predicate ReturnsKeyed(returnRequests: map<Uuid, ReturnRequest>)
  {
    forall id :: id in returnRequests ==> returnRequests[id].id == id
  }

  predicate LedgerKeyed(ledger: map<Uuid, JobRow>)
  {
    forall id :: id in ledger ==> ledger[id].id == id
  }

  /** A ledger row as the publisher writes it and the consumers keep it: its
      idempotency key is its id's text, its attempt counter is 0, and only a
      refund job links a return. */
  predicate RowWellFormed(row: JobRow)
  {
    && row.idempotencyKey == row.id.ToString()
    && row.attempts == 0
    && (row.jobType == REFUND_PROCESSING <==> row.relatedReturnId.Some?)
  }

  predicate LedgerWellFormed(ledger: map<Uuid, JobRow>)
  {
    forall id :: id in ledger ==> RowWellFormed(ledger[id])
  }

  /** Every reference between stored rows resolves. */
  predicate LinksResolve(orders: map<Uuid, Order>, returnRequests: map<Uuid, ReturnRequest>,
                         ledger: map<Uuid, JobRow>)
  {
    && (forall id :: id in returnRequests ==> returnRequests[id].orderId in orders)
    && (forall id :: id in ledger ==> ledger[id].relatedOrderId in orders)
    && (forall id :: id in ledger && ledger[id].relatedReturnId.Some? ==>
          ledger[id].relatedReturnId.value in returnRequests)
  }

  /** `m` is the message announcing the job recorded in `row`. */
  predicate Announces(m: Message, row: JobRow)
  {
    && m.exchange == JOBS_EXCHANGE
    && m.payload.JobId() == row.id
    && match m.payload
       case InvoicePayload(j) =>
         m.routingKey == INVOICE_ROUTING_KEY && row.jobType == INVOICE_GENERATION
         && j.orderId == row.relatedOrderId
       case RefundPayload(j) =>
         m.routingKey == REFUND_ROUTING_KEY && row.jobType == REFUND_PROCESSING
         && j.orderId == row.relatedOrderId && row.relatedReturnId == Some(j.returnId)
  }

  /** Every message on the broker announces a job already in the ledger: the
      row is written before the message is sent. */
  predicate MessagesPublished(ledger: map<Uuid, JobRow>, broker: seq<Message>)
  {
    forall k :: 0 <= k < |broker| ==>
      && broker[k].payload.JobId() in ledger
      && Announces(broker[k], ledger[broker[k].payload.JobId()])
  }

  /** Consumers rewrite a row's status, error and result but never its
      identity; such a rewrite keeps every ledger invariant. */
  lemma RowRewritePreservesLedger(
    orders: map<Uuid, Order>, returnRequests: map<Uuid, ReturnRequest>,
    ledger: map<Uuid, JobRow>, broker: seq<Message>, id: Uuid, row: JobRow)
    requires id in ledger && SameIdentity(ledger[id], row)
    requires LedgerKeyed(ledger) && LedgerWellFormed(ledger)
    requires LinksResolve(orders, returnRequests, ledger) && MessagesPublished(ledger, broker)
    ensures LedgerKeyed(ledger[id := row]) && LedgerWellFormed(ledger[id := row])
    ensures LinksResolve(orders, returnRequests, ledger[id := row])
    ensures MessagesPublished(ledger[id := row], broker)
  {
    var ledger' := ledger[id := row];
    assert RowWellFormed(ledger[id]);
    forall k | 0 <= k < |broker|
      ensures broker[k].payload.JobId() in ledger'
      ensures Announces(broker[k], ledger'[broker[k].payload.JobId()])
    {
      assert Announces(broker[k], ledger[broker[k].payload.JobId()]);
    }
  }

  /** The invariants the services and consumers preserve together: the
      repositories are keyed by id, every order's history tracks its status,
      no return history is written, links resolve, every ledger row is well
      formed and every message announces a recorded job. */
  predicate ConsistentState(
    orders: map<Uuid, Order>, orderHistory: seq<OrderStateHistory>,
    returnRequests: map<Uuid, ReturnRequest>, returnHistory: seq<ReturnStateHistory>,
    ledger: map<Uuid, JobRow>, broker: seq<Message>)
  {
    && OrdersKeyed(orders) && ReturnsKeyed(returnRequests) && LedgerKeyed(ledger)
    && OH.HistoryTracksStatus(orders, orderHistory)
    && returnHistory == []
    && LinksResolve(orders, returnRequests, ledger)
    && LedgerWellFormed(ledger)
    && MessagesPublished(ledger, broker)
  }

  /** Changing the orders and their history keeps the store consistent when
      no order disappears, orders stay keyed and histories keep tracking. */
  lemma OrdersChangePreservesConsistency(
    orders: map<Uuid, Order>, orderHistory: seq<OrderStateHistory>,
    orders': map<Uuid, Order>, orderHistory': seq<OrderStateHistory>,
    returnRequests: map<Uuid, ReturnRequest>, returnHistory: seq<ReturnStateHistory>,
    ledger: map<Uuid, JobRow>, broker: seq<Message>)
    requires ConsistentState(orders, orderHistory, returnRequests, returnHistory, ledger, broker)
    requires orders.Keys <= orders'.Keys && OrdersKeyed(orders')
    requires OH.HistoryTracksStatus(orders', orderHistory')
    ensures ConsistentState(orders', orderHistory', returnRequests, returnHistory, ledger, broker)
  {
    assert LinksResolve(orders', returnRequests, ledger);
  }

  /** Changing the returns keeps the store consistent when no return
      disappears, returns stay keyed and each still names a stored order. */
  lemma ReturnsChangePreservesConsistency(
    orders: map<Uuid, Order>, orderHistory: seq<OrderStateHistory>,
    returnRequests: map<Uuid, ReturnRequest>, returnRequests': map<Uuid, ReturnRequest>,
    returnHistory: seq<ReturnStateHistory>, ledger: map<Uuid, JobRow>, broker: seq<Message>)
    requires ConsistentState(orders, orderHistory, returnRequests, returnHistory, ledger, broker)
    requires returnRequests.Keys <= returnRequests'.Keys && ReturnsKeyed(returnRequests')
    requires forall id :: id in returnRequests' ==> returnRequests'[id].orderId in orders
    ensures ConsistentState(orders, orderHistory, returnRequests', returnHistory, ledger, broker)
  {
    assert LinksResolve(orders, returnRequests', ledger);
  }

  class Store {
    var orders: map<Uuid, Order>
    var orderHistory: seq<OrderStateHistory>
    var returnRequests: map<Uuid, ReturnRequest>
    var returnHistory: seq<ReturnStateHistory>
    var ledger: map<Uuid, JobRow>
    var broker: seq<Message>
    /** Every call of the invoice renderer, in order. */
    ghost var renders: seq<RenderCall>
    /** Every request handed to the refund gateway, in order. */
    ghost var gatewayCalls: seq<RefundRequest>

    /** Each repository stores a row under that row's own id. */
    ghost predicate Valid()
      reads this
    {
      OrdersKeyed(orders) && ReturnsKeyed(returnRequests) && LedgerKeyed(ledger)
    }

    /** The invariants the services and consumers preserve together. */
    ghost predicate Consistent()
      reads this
    {
      ConsistentState(orders, orderHistory, returnRequests, returnHistory, ledger, broker)
    }

    constructor ()
      ensures Consistent()
      ensures orders == map[] && orderHistory == [] && returnRequests == map[]
      ensures returnHistory == [] && ledger == map[] && broker == []
      ensures renders == [] && gatewayCalls == []
    {
      orders, orderHistory := map[], [];
      returnRequests, returnHistory := map[], [];
      ledger, broker := map[], [];
      renders, gatewayCalls := [], [];
    }

    /** `jobLogRepository.findById`: a managed copy of the stored row, or null. */
    method FindJob(id: Uuid) returns (job: JobLog?)
      ensures job == null <==> id !in ledger
      ensures job != null ==> fresh(job) && job.Row() == ledger[id]
    {
      if id in ledger {
        job := new JobLog.Load(ledger[id]);
      } else {
        job := null;
      }
    }

    /** `jobLogRepository.save`: stores the entity's state under its id. */
    method SaveJob(job: JobLog)
      modifies this`ledger
      ensures ledger == old(ledger)[job.id := job.Row()]
    {
      ledger := ledger[job.id := job.Row()];
    }

    /** `rabbitTemplate.convertAndSend`: appends one message to the broker. */
    method Send(exchange: string, routingKey: string, payload: Payload)
      modifies this`broker
      ensures broker == old(broker) + [Message(exchange, routingKey, payload)]
    {
      broker := broker + [Message(exchange, routingKey, payload)];
    }
  }
}
