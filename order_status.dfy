/** The order lifecycle: the six order statuses, in declaration order, and the
    transition table that `OrderService.ChangeOrderStatus` consults. */
module OrderStatuses {

  datatype OrderStatus =
    | PENDING_PAYMENT
    | PAID
    | PROCESSING_IN_WAREHOUSE
    | SHIPPED
    | DELIVERED
    | CANCELLED

  /** Position of the constant in the enum declaration (Java's `ordinal()`). */
  function Ordinal(s: OrderStatus): nat
  {
    match s
    case PENDING_PAYMENT => 0
    case PAID => 1
    case PROCESSING_IN_WAREHOUSE => 2
    case SHIPPED => 3
    case DELIVERED => 4
    case CANCELLED => 5
  }

  /** The legal-transition table. Every status may be re-applied to itself;
      every other permitted edge moves to a later enum constant. */
  predicate CanTransitionTo(current: OrderStatus, target: OrderStatus): (r: bool)
    ensures current == target ==> r
    ensures r && current != target ==> Ordinal(current) < Ordinal(target)
  {
    if current == target then true
    else
      match current
      case PENDING_PAYMENT => target == PAID || target == CANCELLED
      case PAID => target == PROCESSING_IN_WAREHOUSE || target == CANCELLED
      case PROCESSING_IN_WAREHOUSE => target == SHIPPED
      case SHIPPED => target == DELIVERED
      case DELIVERED => false
      case CANCELLED => false
  }

  /** A status with no outgoing edge other than its self-loop. */
  predicate IsTerminal(s: OrderStatus): (r: bool)
    ensures r <==> forall t :: CanTransitionTo(s, t) ==> t == s
  {
    if s == DELIVERED || s == CANCELLED then true
    else
      assert CanTransitionTo(s, if s == PENDING_PAYMENT || s == PAID then CANCELLED
                                else if s == PROCESSING_IN_WAREHOUSE then SHIPPED
                                else DELIVERED);
      false
  }

  /** The statuses other than `s` that `s` may move to in one step. */
  function Successors(s: OrderStatus): (r: set<OrderStatus>)
    ensures forall t :: t in r <==> t != s && CanTransitionTo(s, t)
  {
    match s
    case PENDING_PAYMENT => {PAID, CANCELLED}
    case PAID => {PROCESSING_IN_WAREHOUSE, CANCELLED}
    case PROCESSING_IN_WAREHOUSE => {SHIPPED}
    case SHIPPED => {DELIVERED}
    case DELIVERED => {}
    case CANCELLED => {}
  }

  /** Cancelling is possible only before the order reaches the warehouse. */
  lemma CancellableExactlyBeforeWarehouse(s: OrderStatus)
    requires s != CANCELLED
    ensures CanTransitionTo(s, CANCELLED) <==> s == PENDING_PAYMENT || s == PAID
  {
  }

  /** A sequence of statuses in which each consecutive pair is a permitted
      transition (self-loops included). */
  predicate IsPath(p: seq<OrderStatus>)
  {
    forall k :: 0 < k < |p| ==> CanTransitionTo(p[k - 1], p[k])
  }

  ghost predicate Reachable(from: OrderStatus, to: OrderStatus)
  {
    exists p :: IsPath(p) && |p| > 0 && p[0] == from && p[|p| - 1] == to
  }

  /** Along any path, the enum ordinal never decreases. */
  lemma {:induction false} PathOrdinalsMonotone(p: seq<OrderStatus>, i: nat, j: nat)
    requires IsPath(p)
    requires i <= j < |p|
    ensures Ordinal(p[i]) <= Ordinal(p[j])
  {
    if i < j {
      PathOrdinalsMonotone(p, i, j - 1);
      assert CanTransitionTo(p[j - 1], p[j]);
    }
  }

  /** Along any path, once the ordinal is back where it started every step
      in between was a self-loop. */
  lemma {:induction false} PathReturningIsConstant(p: seq<OrderStatus>, i: nat, j: nat)
    requires IsPath(p)
    requires i <= j < |p|
    requires p[i] == p[j]
    ensures forall k :: i <= k <= j ==> p[k] == p[i]
  {
    forall k | i <= k <= j
      ensures p[k] == p[i]
    {
      PathOrdinalsMonotone(p, i, k);
      PathOrdinalsMonotone(p, k, j);
      OrdinalInjective(p[k], p[i]);
    }
  }

  lemma OrdinalInjective(a: OrderStatus, b: OrderStatus)
    requires Ordinal(a) == Ordinal(b)
    ensures a == b
  {
  }

  /** There is no cycle in the table other than self-loops. */
  lemma ReachableAntisymmetric(a: OrderStatus, b: OrderStatus)
    requires Reachable(a, b) && Reachable(b, a)
    ensures a == b
  {
    var p :| IsPath(p) && |p| > 0 && p[0] == a && p[|p| - 1] == b;
    var q :| IsPath(q) && |q| > 0 && q[0] == b && q[|q| - 1] == a;
    PathOrdinalsMonotone(p, 0, |p| - 1);
    PathOrdinalsMonotone(q, 0, |q| - 1);
    OrdinalInjective(a, b);
  }

  /** Once a path visits a terminal status it stays there. */
  lemma {:induction false} TerminalIsAbsorbing(p: seq<OrderStatus>, i: nat, j: nat)
    requires IsPath(p)
    requires i <= j < |p|
    requires IsTerminal(p[i])
    ensures p[j] == p[i]
  {
    if i < j {
      TerminalIsAbsorbing(p, i, j - 1);
      assert CanTransitionTo(p[j - 1], p[j]);
    }
  }

  /** The happy path of the order lifecycle is a legal path, so every status
      is reachable from the initial PENDING_PAYMENT. */
  lemma EveryStatusReachableFromPendingPayment(s: OrderStatus)
    ensures Reachable(PENDING_PAYMENT, s)
  {
    var full := [PENDING_PAYMENT, PAID, PROCESSING_IN_WAREHOUSE, SHIPPED, DELIVERED];
    assert IsPath(full);
    match s
    case PENDING_PAYMENT => assert IsPath(full[..1]);
    case PAID => assert IsPath(full[..2]);
    case PROCESSING_IN_WAREHOUSE => assert IsPath(full[..3]);
    case SHIPPED => assert IsPath(full[..4]);
    case DELIVERED => assert full[|full| - 1] == DELIVERED;
    case CANCELLED =>
      var c := [PENDING_PAYMENT, CANCELLED];
      assert IsPath(c);
  }

  /** DELIVERED and CANCELLED are the terminal statuses, and the only ones. */
  lemma TerminalOrderStatuses(s: OrderStatus)
    ensures IsTerminal(s) <==> s == DELIVERED || s == CANCELLED
  {
  }

  /** DELIVERED -> SHIPPED is rejected, as the order service test expects. */
  lemma DeliveredCannotBeReshipped()
    ensures !CanTransitionTo(DELIVERED, SHIPPED)
  {
  }
}
