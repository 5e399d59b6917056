/** `ReturnService`: opening a return for a delivered order and moving a
    return through its lifecycle. No return history row is ever written. */
module ReturnService {
  import opened Domain
  import opened Repositories
  import opened ReturnStatuses
  import OS = OrderStatuses
  import OrderService

  /** Adding a return for a stored order keeps the store consistent. */
  lemma AddReturnPreservesConsistency(
    orders: map<Uuid, Order>, orderHistory: seq<OrderStateHistory>,
    returnRequests: map<Uuid, ReturnRequest>, returnHistory: seq<ReturnStateHistory>,
    ledger: map<Uuid, JobRow>, broker: seq<Messaging.Message>, rr: ReturnRequest)
    requires ConsistentState(orders, orderHistory, returnRequests, returnHistory, ledger, broker)
    requires rr.orderId in orders
    ensures ConsistentState(orders, orderHistory, returnRequests[rr.id := rr], returnHistory, ledger, broker)
  {
    var returns' := returnRequests[rr.id := rr];
    assert ReturnsKeyed(returns');
    ReturnsChangePreservesConsistency(orders, orderHistory, returnRequests, returns', returnHistory, ledger, broker);
  }

  /** Rewriting the status of a stored return keeps the store consistent. */
  lemma ReturnStatusUpdatePreservesConsistency(
    orders: map<Uuid, Order>, orderHistory: seq<OrderStateHistory>,
    returnRequests: map<Uuid, ReturnRequest>, returnHistory: seq<ReturnStateHistory>,
    ledger: map<Uuid, JobRow>, broker: seq<Messaging.Message>, id: Uuid, status: ReturnStatus)
    requires ConsistentState(orders, orderHistory, returnRequests, returnHistory, ledger, broker)
    requires id in returnRequests
    ensures ConsistentState(orders, orderHistory, returnRequests[id := returnRequests[id].(status := status)],
                            returnHistory, ledger, broker)
  {
    var returns' := returnRequests[id := returnRequests[id].(status := status)];
    assert ReturnsKeyed(returns');
    ReturnsChangePreservesConsistency(orders, orderHistory, returnRequests, returns', returnHistory, ledger, broker);
  }

  /** `createReturn`: fails for an unknown order and for an order whose
      status is not DELIVERED (a null status included); otherwise stores a
      REQUESTED return that references the order. */
  method CreateReturn(s: Store, orderId: Uuid, reason: string, returnId: Uuid)
    returns (r: Result<ReturnRequest>)
    requires s.Valid()
    requires returnId !in s.returnRequests
    modifies s
    ensures orderId !in old(s.orders) ==> r == Err(OrderNotFound(orderId)) && unchanged(s)
    ensures orderId in old(s.orders) && old(s.orders)[orderId].status != Some(OS.DELIVERED) ==>
              r == Err(OrderNotDelivered(orderId)) && unchanged(s)
    ensures r.Ok? <==> orderId in old(s.orders) && old(s.orders)[orderId].status == Some(OS.DELIVERED)
    ensures r.Ok? ==>
              && r.value == ReturnRequest(returnId, orderId, reason, REQUESTED)
              && s.returnRequests == old(s.returnRequests)[returnId := r.value]
    ensures s.orders == old(s.orders) && s.orderHistory == old(s.orderHistory)
    ensures s.returnHistory == old(s.returnHistory)
    ensures s.ledger == old(s.ledger) && s.broker == old(s.broker)
    ensures s.renders == old(s.renders) && s.gatewayCalls == old(s.gatewayCalls)
    ensures s.Valid()
    ensures old(s.Consistent()) ==> s.Consistent()
  {
    ghost var wasConsistent := s.Consistent();
    var found := OrderService.FindById(s, orderId);
    if found == None {
      return Err(OrderNotFound(orderId));
    }
    var order := found.value;
    if order.status != Some(OS.DELIVERED) {
      return Err(OrderNotDelivered(orderId));
    }
    var rr := ReturnRequest(returnId, order.id, reason, REQUESTED);
    s.returnRequests := s.returnRequests[returnId := rr];
    if wasConsistent {
      AddReturnPreservesConsistency(old(s.orders), old(s.orderHistory), old(s.returnRequests),
                                    old(s.returnHistory), old(s.ledger), old(s.broker), rr);
    }
    r := Ok(rr);
  }

  /** `changeReturnStatus`: fails for an unknown return and for an edge the
      table rejects; otherwise only that return's status changes. The actor
      and reason are accepted but recorded nowhere. */
  method ChangeReturnStatus(s: Store, returnId: Uuid, target: ReturnStatus, actor: string, reason: string)
    returns (r: Result<ReturnRequest>)
    requires s.Valid()
    modifies s
    ensures returnId !in old(s.returnRequests) ==> r == Err(ReturnNotFound(returnId)) && unchanged(s)
    ensures returnId in old(s.returnRequests) ==>
              var from := old(s.returnRequests)[returnId].status;
              !CanTransitionTo(from, target) ==> r == Err(InvalidReturnTransition(from, target)) && unchanged(s)
    ensures r.Ok? <==>
              returnId in old(s.returnRequests) && CanTransitionTo(old(s.returnRequests)[returnId].status, target)
    ensures r.Ok? ==>
              && r.value == old(s.returnRequests)[returnId].(status := target)
              && s.returnRequests == old(s.returnRequests)[returnId := r.value]
    ensures s.orders == old(s.orders) && s.orderHistory == old(s.orderHistory)
    ensures s.returnHistory == old(s.returnHistory)
    ensures s.ledger == old(s.ledger) && s.broker == old(s.broker)
    ensures s.renders == old(s.renders) && s.gatewayCalls == old(s.gatewayCalls)
    ensures s.Valid()
    ensures old(s.Consistent()) ==> s.Consistent()
  {
    ghost var wasConsistent := s.Consistent();
    if returnId !in s.returnRequests {
      return Err(ReturnNotFound(returnId));
    }
    var rr := s.returnRequests[returnId];
    var from := rr.status;
    if !CanTransitionTo(from, target) {
      return Err(InvalidReturnTransition(from, target));
    }
    rr := rr.(status := target);
    s.returnRequests := s.returnRequests[returnId := rr];
    if wasConsistent {
      ReturnStatusUpdatePreservesConsistency(old(s.orders), old(s.orderHistory), old(s.returnRequests),
                                             old(s.returnHistory), old(s.ledger), old(s.broker),
                                             returnId, target);
    }
    r := Ok(rr);
  }
}

/** The one business rule of `ReturnController.changeStatus`: after a
    successful status change, a refund job is published whenever the return's
    status is COMPLETED, a COMPLETED -> COMPLETED re-application included. */
module ReturnController {
  import opened Domain
  import opened Repositories
  import opened ReturnStatuses
  import ReturnService
  import JobPublisher

  const API_ACTOR := "api"
  const MANUAL_REASON := "manual"
  const PAYMENT_REFERENCE := "ORIG-PAYMENT-REF"
  const CURRENCY := "USD"

  method ChangeStatus(s: Store, returnId: Uuid, target: ReturnStatus, jobId: Uuid)
    returns (r: Result<ReturnRequest>)
    requires s.Valid()
    requires target == COMPLETED ==> jobId !in s.ledger
    modifies s
    ensures r.Ok? <==>
              returnId in old(s.returnRequests) && CanTransitionTo(old(s.returnRequests)[returnId].status, target)
    ensures r.Err? ==> unchanged(s)
    ensures r.Ok? ==>
              && r.value == old(s.returnRequests)[returnId].(status := target)
              && s.returnRequests == old(s.returnRequests)[returnId := r.value]
              && (target == COMPLETED ==>
                    && s.ledger == old(s.ledger)[jobId := JobPublisher.RefundJobRow(jobId, r.value)]
                    && s.broker == old(s.broker)
                         + [JobPublisher.RefundMessage(jobId, r.value, PAYMENT_REFERENCE, CURRENCY)])
              && (target != COMPLETED ==> s.ledger == old(s.ledger) && s.broker == old(s.broker))
    ensures s.orders == old(s.orders) && s.orderHistory == old(s.orderHistory)
    ensures s.returnHistory == old(s.returnHistory)
    ensures s.renders == old(s.renders) && s.gatewayCalls == old(s.gatewayCalls)
    ensures s.Valid()
    ensures old(s.Consistent()) ==> s.Consistent()
  {
    r := ReturnService.ChangeReturnStatus(s, returnId, target, API_ACTOR, MANUAL_REASON);
    if r.Ok? && r.value.status == COMPLETED {
      var _ := JobPublisher.PublishRefundJob(s, r.value, PAYMENT_REFERENCE, CURRENCY, jobId);
    }
  }
}
