/** The append-only order history and the invariant the order service keeps
    over it: each order's rows form a legal chain of transitions, starting with
    the "order created" row, whose last target is the order's current status. */
module OrderHistories {
  import opened Domain
  import OS = OrderStatuses

  /** The rows of `h` that belong to order `orderId`, in insertion order. */
  function HistoryOf(h: seq<OrderStateHistory>, orderId: Uuid): (r: seq<OrderStateHistory>)
    ensures |r| <= |h|
    ensures forall k :: 0 <= k < |r| ==> r[k].orderId == orderId
  {
    if h == [] then []
    else
      var last := h[|h| - 1];
      HistoryOf(h[..|h| - 1], orderId) + (if last.orderId == orderId then [last] else [])
  }

  /** Appending a row extends exactly the history of the row's own order. */
  lemma HistoryOfAppend(h: seq<OrderStateHistory>, row: OrderStateHistory, orderId: Uuid)
    ensures HistoryOf(h + [row], orderId)
         == HistoryOf(h, orderId) + (if row.orderId == orderId then [row] else [])
  {
    assert (h + [row])[..|h|] == h;
  }

  /** An order no row mentions has an empty history. */
  lemma {:induction false} HistoryOfAbsent(h: seq<OrderStateHistory>, orderId: Uuid)
    requires forall k :: 0 <= k < |h| ==> h[k].orderId != orderId
    ensures HistoryOf(h, orderId) == []
  {
    if h != [] {
      HistoryOfAbsent(h[..|h| - 1], orderId);
    }
  }

  /** One order's rows: the creation row (from null to PENDING_PAYMENT)
      followed by rows each leaving the previous row's target by a permitted edge. */
  predicate Chained(rows: seq<OrderStateHistory>)
  {
    && |rows| > 0
    && rows[0].fromState == None
    && rows[0].toState == OS.PENDING_PAYMENT
    && forall i, j :: 0 <= i < |rows| && 0 <= j < |rows| && j == i + 1 ==>
         && rows[j].fromState == Some(rows[i].toState)
         && OS.CanTransitionTo(rows[i].toState, rows[j].toState)
  }

  /** One order's history is a chain whose last target is the order's status. */
  predicate Tracks(order: Order, rows: seq<OrderStateHistory>)
  {
    Chained(rows) && order.status == Some(rows[|rows| - 1].toState)
  }

  /** Every history row belongs to a stored order, and every stored order's
      status is the target of the last row of its chained history. */
  predicate HistoryTracksStatus(orders: map<Uuid, Order>, history: seq<OrderStateHistory>)
  {
    && (forall k :: 0 <= k < |history| ==> history[k].orderId in orders)
    && forall id :: id in orders ==> Tracks(orders[id], HistoryOf(history, id))
  }

  /** Creating an order together with its creation row keeps the invariant. */
  lemma CreationPreservesTracking(
    orders: map<Uuid, Order>, history: seq<OrderStateHistory>,
    order: Order, row: OrderStateHistory)
    requires HistoryTracksStatus(orders, history)
    requires order.id !in orders
    requires order.status == Some(OS.PENDING_PAYMENT)
    requires row.orderId == order.id && row.fromState == None
    requires row.toState == OS.PENDING_PAYMENT
    ensures HistoryTracksStatus(orders[order.id := order], history + [row])
  {
    var orders', history' := orders[order.id := order], history + [row];
    forall id | id in orders'
      ensures Tracks(orders'[id], HistoryOf(history', id))
    {
      HistoryOfAppend(history, row, id);
      if id == order.id {
        HistoryOfAbsent(history, id);
        assert HistoryOf(history', id) == [row];
      } else {
        assert Tracks(orders[id], HistoryOf(history, id));
      }
    }
  }

  /** Recording a permitted transition of a stored order and setting its
      status to the target keeps the invariant. */
  lemma TransitionPreservesTracking(
    orders: map<Uuid, Order>, history: seq<OrderStateHistory>,
    id: Uuid, row: OrderStateHistory)
    requires HistoryTracksStatus(orders, history)
    requires id in orders && row.orderId == id
    requires row.fromState == orders[id].status && row.fromState.Some?
    requires OS.CanTransitionTo(row.fromState.value, row.toState)
    ensures HistoryTracksStatus(orders[id := orders[id].(status := Some(row.toState))], history + [row])
  {
    var orders' := orders[id := orders[id].(status := Some(row.toState))];
    var history' := history + [row];
    forall k | 0 <= k < |history'|
      ensures history'[k].orderId in orders'
    {
      if k < |history| {
        assert history'[k] == history[k];
      }
    }
    forall other | other in orders'
      ensures Tracks(orders'[other], HistoryOf(history', other))
    {
      assert Tracks(orders[other], HistoryOf(history, other));
      TracksAfterAppend(orders[other], other, history, row);
    }
  }

  /** The per-order step behind `TransitionPreservesTracking`: appending a
      row affects only the history of the order it names. */
  lemma TracksAfterAppend(order: Order, key: Uuid, history: seq<OrderStateHistory>, row: OrderStateHistory)
    requires Tracks(order, HistoryOf(history, key))
    requires row.orderId == key ==> row.fromState == order.status && row.fromState.Some?
    requires row.orderId == key ==> OS.CanTransitionTo(row.fromState.value, row.toState)
    ensures row.orderId == key ==> Tracks(order.(status := Some(row.toState)), HistoryOf(history + [row], key))
    ensures row.orderId != key ==> Tracks(order, HistoryOf(history + [row], key))
  {
    HistoryOfAppend(history, row, key);
    if row.orderId == key {
      TracksAfterStep(order, HistoryOf(history, key), row);
    }
  }

  /** Applying one permitted step to an order and appending its row keeps
      the order's history tracking its status. */
  lemma TracksAfterStep(order: Order, rows: seq<OrderStateHistory>, row: OrderStateHistory)
    requires Tracks(order, rows)
    requires row.fromState == order.status
    requires OS.CanTransitionTo(order.status.value, row.toState)
    ensures Tracks(order.(status := Some(row.toState)), rows + [row])
  {
    ChainExtend(rows, row);
  }

  /** A chain stays a chain when a row leaving its last target by a permitted
      edge is appended. */
  lemma ChainExtend(rows: seq<OrderStateHistory>, row: OrderStateHistory)
    requires Chained(rows)
    requires row.fromState == Some(rows[|rows| - 1].toState)
    requires OS.CanTransitionTo(rows[|rows| - 1].toState, row.toState)
    ensures Chained(rows + [row])
  {
    var rows' := rows + [row];
    forall i, j | 0 <= i < j < |rows'| && j == i + 1
      ensures rows'[j].fromState == Some(rows'[i].toState)
      ensures OS.CanTransitionTo(rows'[i].toState, rows'[j].toState)
    {
      if j < |rows| {
        assert rows'[j] == rows[j] && rows'[i] == rows[i];
      }
    }
  }

  /** The statuses an order's history visits, one per row. */
  function Visited(rows: seq<OrderStateHistory>): seq<OS.OrderStatus>
  {
    seq(|rows|, k requires 0 <= k < |rows| => rows[k].toState)
  }

  /** What the invariant buys: an order's recorded statuses never move back
      in the lifecycle, and its current status was reached from
      PENDING_PAYMENT by permitted transitions only. */
  lemma HistoryIsLegalLifecycle(orders: map<Uuid, Order>, history: seq<OrderStateHistory>, id: Uuid)
    requires HistoryTracksStatus(orders, history)
    requires id in orders
    ensures orders[id].status.Some?
    ensures OS.Reachable(OS.PENDING_PAYMENT, orders[id].status.value)
    ensures var p := Visited(HistoryOf(history, id));
            forall i, j :: 0 <= i <= j < |p| ==> OS.Ordinal(p[i]) <= OS.Ordinal(p[j])
  {
    var rows := HistoryOf(history, id);
    assert Tracks(orders[id], rows);
    var p := Visited(rows);
    assert OS.IsPath(p);
    assert p[0] == OS.PENDING_PAYMENT && p[|p| - 1] == orders[id].status.value;
    forall i, j | 0 <= i <= j < |p|
      ensures OS.Ordinal(p[i]) <= OS.Ordinal(p[j])
    {
      OS.PathOrdinalsMonotone(p, i, j);
    }
  }
}
