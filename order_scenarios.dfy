/** The two order service scenarios the repository's tests exercise, run on a
    fresh store with the publisher live rather than mocked. */
module OrderScenarios {
  import opened Domain
  import opened Repositories
  import opened OrderStatuses
  import OrderService

  /** Pairwise distinct ids. */
  predicate Distinct(ids: seq<Uuid>)
  {
    forall i, j :: 0 <= i < j < |ids| ==> ids[i] != ids[j]
  }

  /** A new order starts in PENDING_PAYMENT and can be paid. */
  method CreateAndTransitionToPaid(orderId: Uuid, historyIds: seq<Uuid>, jobId: Uuid)
    returns (created: Order, updated: Result<Order>, historyLength: nat)
    requires |historyIds| == 2 && Distinct(historyIds)
    ensures created.status == Some(PENDING_PAYMENT)
    ensures updated == Ok(created.(status := Some(PAID)))
    ensures historyLength == 2
  {
    var s := new Store();
    created := OrderService.CreateOrder(s, "ext-1", "a@b.com", Amount(10000, 2), orderId, historyIds[0]);
    updated := OrderService.ChangeOrderStatus(s, orderId, PAID, "test", "payment received", historyIds[1], jobId);
    historyLength := |s.orderHistory|;
  }

  /** The ids of the history rows, in order. */
  predicate HistoryIdsAre(history: seq<OrderStateHistory>, ids: seq<Uuid>)
  {
    |history| == |ids| && forall k :: 0 <= k < |history| ==> history[k].id == ids[k]
  }

  /** One permitted step of the walk, as the test performs it, recording
      the history row under the next unused id of `ids`. */
  method Step(s: Store, orderId: Uuid, from: OrderStatus, target: OrderStatus,
              ids: seq<Uuid>, n: nat, jobId: Uuid)
    requires s.Valid() && orderId in s.orders && s.orders[orderId].status == Some(from)
    requires CanTransitionTo(from, target)
    requires n < |ids| && Distinct(ids) && HistoryIdsAre(s.orderHistory, ids[..n])
    requires target == SHIPPED ==> jobId !in s.ledger
    modifies s
    ensures s.Valid() && orderId in s.orders && s.orders[orderId].status == Some(target)
    ensures HistoryIdsAre(s.orderHistory, ids[..n + 1])
    ensures target == SHIPPED ==> s.ledger.Keys == old(s.ledger.Keys) + {jobId} && |s.broker| == |old(s.broker)| + 1
    ensures target != SHIPPED ==> s.ledger == old(s.ledger) && s.broker == old(s.broker)
  {
    assert OrderService.FreshHistoryId(s.orderHistory, ids[n]);
    var r := OrderService.ChangeOrderStatus(s, orderId, target, "test", "step", ids[n], jobId);
  }

  /** The walk the test performs on a new order: PAID, PROCESSING_IN_WAREHOUSE,
      SHIPPED, DELIVERED. */
  method WalkToDelivered(s: Store, orderId: Uuid, historyIds: seq<Uuid>, jobId: Uuid)
    requires s.Valid() && s.orders == map[] && s.orderHistory == [] && s.ledger == map[] && s.broker == []
    requires |historyIds| == 5 && Distinct(historyIds)
    modifies s
    ensures s.Valid() && orderId in s.orders && s.orders[orderId].status == Some(DELIVERED)
    ensures HistoryIdsAre(s.orderHistory, historyIds)
    ensures s.ledger.Keys == {jobId} && |s.broker| == 1
  {
    var o := OrderService.CreateOrder(s, "ext-2", "c@d.com", Amount(5000, 2), orderId, historyIds[0]);
    Step(s, orderId, PENDING_PAYMENT, PAID, historyIds, 1, jobId);
    Step(s, orderId, PAID, PROCESSING_IN_WAREHOUSE, historyIds, 2, jobId);
    Step(s, orderId, PROCESSING_IN_WAREHOUSE, SHIPPED, historyIds, 3, jobId);
    Step(s, orderId, SHIPPED, DELIVERED, historyIds, 4, jobId);
    assert historyIds[..5] == historyIds;
  }

  /** Walking an order to DELIVERED publishes exactly one invoice job (on
      SHIPPED), after which shipping it again is rejected and publishes none. */
  method InvalidTransitionThrows(orderId: Uuid, historyIds: seq<Uuid>, jobIds: seq<Uuid>)
    returns (rejected: Result<Order>, finalStatus: Option<OrderStatus>, messagesSent: nat)
    requires |historyIds| == 6 && Distinct(historyIds)
    requires |jobIds| == 2 && Distinct(jobIds)
    ensures rejected == Err(InvalidOrderTransition(DELIVERED, SHIPPED))
    ensures finalStatus == Some(DELIVERED)
    ensures messagesSent == 1
  {
    var s := new Store();
    WalkToDelivered(s, orderId, historyIds[..5], jobIds[0]);
    assert OrderService.FreshHistoryId(s.orderHistory, historyIds[5]);
    rejected := OrderService.ChangeOrderStatus(s, orderId, SHIPPED, "test", "invalid", historyIds[5], jobIds[1]);
    finalStatus := s.orders[orderId].status;
    messagesSent := |s.broker|;
  }
}
