/** `OrderService`: creating orders and moving them through the lifecycle,
    recording one history row per accepted transition and publishing an
    invoice job whenever an order is moved to SHIPPED. */
module OrderService {
  import opened Domain
  import opened Messaging
  import opened Repositories
  import opened OrderStatuses
  import OH = OrderHistories
  import JobPublisher

  const SYSTEM_ACTOR := "system"
  const CREATED_REASON := "order created"

  /** A stored status that is null counts as PENDING_PAYMENT. */
  function EffectiveStatus(order: Order): (s: OrderStatus)
    ensures order.status.Some? ==> s == order.status.value
    ensures order.status == None ==> s == PENDING_PAYMENT
  {
    match order.status
    case Some(st) => st
    case None => PENDING_PAYMENT
  }

  /** No stored history row carries this id. */
  predicate FreshHistoryId(history: seq<OrderStateHistory>, id: Uuid)
  {
    forall k :: 0 <= k < |history| ==> history[k].id != id
  }

  method CreateOrder(s: Store, externalId: string, customerEmail: string, totalAmount: Amount,
                     orderId: Uuid, historyId: Uuid)
    returns (order: Order)
    requires s.Valid()
    requires orderId !in s.orders && FreshHistoryId(s.orderHistory, historyId)
    modifies s
    ensures order == Order(orderId, externalId, customerEmail, totalAmount, Some(PENDING_PAYMENT))
    ensures s.orders == old(s.orders)[orderId := order]
    ensures s.orderHistory == old(s.orderHistory)
              + [OrderStateHistory(historyId, orderId, None, PENDING_PAYMENT, SYSTEM_ACTOR, CREATED_REASON)]
    ensures s.returnRequests == old(s.returnRequests) && s.returnHistory == old(s.returnHistory)
    ensures s.ledger == old(s.ledger) && s.broker == old(s.broker)
    ensures s.renders == old(s.renders) && s.gatewayCalls == old(s.gatewayCalls)
    ensures s.Valid()
    ensures old(s.Consistent()) ==> s.Consistent()
  {
    ghost var wasConsistent := s.Consistent();
    order := Order(orderId, externalId, customerEmail, totalAmount, Some(PENDING_PAYMENT));
    s.orders := s.orders[orderId := order];
    var h := OrderStateHistory(historyId, orderId, None, PENDING_PAYMENT, SYSTEM_ACTOR, CREATED_REASON);
    s.orderHistory := s.orderHistory + [h];
    if wasConsistent {
      CreationPreservesConsistency(old(s.orders), old(s.orderHistory), old(s.returnRequests),
                                   old(s.returnHistory), old(s.ledger), old(s.broker), order, h);
    }
  }

  /** Adding an order together with its creation row keeps the store consistent. */
  lemma CreationPreservesConsistency(
    orders: map<Uuid, Order>, orderHistory: seq<OrderStateHistory>,
    returnRequests: map<Uuid, ReturnRequest>, returnHistory: seq<ReturnStateHistory>,
    ledger: map<Uuid, JobRow>, broker: seq<Message>, order: Order, row: OrderStateHistory)
    requires ConsistentState(orders, orderHistory, returnRequests, returnHistory, ledger, broker)
    requires order.id !in orders && order.status == Some(PENDING_PAYMENT)
    requires row.orderId == order.id && row.fromState == None && row.toState == PENDING_PAYMENT
    ensures ConsistentState(orders[order.id := order], orderHistory + [row],
                            returnRequests, returnHistory, ledger, broker)
  {
    OH.CreationPreservesTracking(orders, orderHistory, order, row);
    OrdersChangePreservesConsistency(orders, orderHistory, orders[order.id := order], orderHistory + [row],
                                     returnRequests, returnHistory, ledger, broker);
  }

  /** Changing the status of a stored order keeps the store consistent
      provided the new status is a permitted step from the old one. */
  lemma TransitionPreservesConsistency(
    orders: map<Uuid, Order>, orderHistory: seq<OrderStateHistory>,
    returnRequests: map<Uuid, ReturnRequest>, returnHistory: seq<ReturnStateHistory>,
    ledger: map<Uuid, JobRow>, broker: seq<Message>, row: OrderStateHistory)
    requires ConsistentState(orders, orderHistory, returnRequests, returnHistory, ledger, broker)
    requires row.orderId in orders && row.fromState == orders[row.orderId].status && row.fromState.Some?
    requires CanTransitionTo(row.fromState.value, row.toState)
    ensures ConsistentState(orders[row.orderId := orders[row.orderId].(status := Some(row.toState))],
                            orderHistory + [row], returnRequests, returnHistory, ledger, broker)
  {
    OH.TransitionPreservesTracking(orders, orderHistory, row.orderId, row);
    var orders' := orders[row.orderId := orders[row.orderId].(status := Some(row.toState))];
    assert OrdersKeyed(orders');
    OrdersChangePreservesConsistency(orders, orderHistory, orders', orderHistory + [row],
                                     returnRequests, returnHistory, ledger, broker);
  }

  /** `changeOrderStatus`. An unknown id and a transition the table rejects
      fail and change nothing; otherwise one history row (from the effective
      old status to the target) is appended, the status is set, and an
      invoice job is published exactly when the target is SHIPPED. */
  method ChangeOrderStatus(s: Store, orderId: Uuid, target: OrderStatus, actor: string, reason: string,
                           historyId: Uuid, jobId: Uuid)
    returns (r: Result<Order>)
    requires s.Valid()
    requires FreshHistoryId(s.orderHistory, historyId)
    requires target == SHIPPED ==> jobId !in s.ledger
    modifies s
    ensures orderId !in old(s.orders) ==> r == Err(OrderNotFound(orderId)) && unchanged(s)
    ensures orderId in old(s.orders) ==>
              var from := EffectiveStatus(old(s.orders)[orderId]);
              !CanTransitionTo(from, target) ==> r == Err(InvalidOrderTransition(from, target)) && unchanged(s)
    ensures r.Ok? ==>
              && orderId in old(s.orders)
              && var old_order := old(s.orders)[orderId];
              && var from := EffectiveStatus(old_order);
              && CanTransitionTo(from, target)
              && r.value == old_order.(status := Some(target))
              && s.orders == old(s.orders)[orderId := r.value]
              && s.orderHistory == old(s.orderHistory)
                   + [OrderStateHistory(historyId, orderId, Some(from), target, actor, reason)]
              && (target == SHIPPED ==>
                    && s.ledger == old(s.ledger)[jobId := JobPublisher.InvoiceJobRow(jobId, orderId)]
                    && s.broker == old(s.broker) + [JobPublisher.InvoiceMessage(jobId, r.value)])
              && (target != SHIPPED ==> s.ledger == old(s.ledger) && s.broker == old(s.broker))
    ensures r.Ok? <==> orderId in old(s.orders) && CanTransitionTo(EffectiveStatus(old(s.orders)[orderId]), target)
    ensures s.returnRequests == old(s.returnRequests) && s.returnHistory == old(s.returnHistory)
    ensures s.renders == old(s.renders) && s.gatewayCalls == old(s.gatewayCalls)
    ensures s.Valid()
    ensures old(s.Consistent()) ==> s.Consistent()
  {
    ghost var wasConsistent := s.Consistent();
    if orderId !in s.orders {
      return Err(OrderNotFound(orderId));
    }
    var order := s.orders[orderId];
    var from := order.status;
    if from == None {
      from := Some(PENDING_PAYMENT);
    }
    if !CanTransitionTo(from.value, target) {
      return Err(InvalidOrderTransition(from.value, target));
    }
    var history := OrderStateHistory(historyId, orderId, from, target, actor, reason);
    s.orderHistory := s.orderHistory + [history];
    order := order.(status := Some(target));
    s.orders := s.orders[orderId := order];
    if wasConsistent {
      TransitionPreservesConsistency(old(s.orders), old(s.orderHistory), old(s.returnRequests),
                                     old(s.returnHistory), old(s.ledger), old(s.broker), history);
    }

    if target == SHIPPED {
      var _ := JobPublisher.PublishInvoiceJob(s, order, jobId);
    }
    r := Ok(order);
  }

  /** `findById`: the stored order with that id, if any. */
  function FindById(s: Store, id: Uuid): (r: Option<Order>)
    reads s
    requires s.Valid()
    ensures r.Some? <==> id in s.orders
    ensures r.Some? ==> r.value.id == id && r.value == s.orders[id]
  {
    if id in s.orders then Some(s.orders[id]) else None
  }
}
