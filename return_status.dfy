/** The return lifecycle: the seven return statuses, in declaration order,
    and the transition table that `ReturnService.ChangeReturnStatus` consults. */
module ReturnStatuses {

  datatype ReturnStatus =
    | REQUESTED
    | APPROVED
    | REJECTED
    | IN_TRANSIT
    | RECEIVED
    | COMPLETED
    | CANCELLED

  /** Position of the constant in the enum declaration (Java's `ordinal()`). */
  function Ordinal(s: ReturnStatus): nat
  {
    match s
    case REQUESTED => 0
    case APPROVED => 1
    case REJECTED => 2
    case IN_TRANSIT => 3
    case RECEIVED => 4
    case COMPLETED => 5
    case CANCELLED => 6
  }

  /** The legal-transition table. Every status may be re-applied to itself;
      every other permitted edge moves to a later enum constant. */
  predicate CanTransitionTo(current: ReturnStatus, target: ReturnStatus): (r: bool)
    ensures current == target ==> r
    ensures r && current != target ==> Ordinal(current) < Ordinal(target)
  {
    if current == target then true
    else
      match current
      case REQUESTED => target == APPROVED || target == REJECTED || target == CANCELLED
      case APPROVED => target == IN_TRANSIT || target == CANCELLED
      case IN_TRANSIT => target == RECEIVED || target == CANCELLED
      case RECEIVED => target == COMPLETED || target == CANCELLED
      case COMPLETED => false
      case REJECTED => false
      case CANCELLED => false
  }

  /** A status with no outgoing edge other than its self-loop. */
  predicate IsTerminal(s: ReturnStatus): (r: bool)
    ensures r <==> forall t :: CanTransitionTo(s, t) ==> t == s
  {
    if s == COMPLETED || s == REJECTED || s == CANCELLED then true
    else
      assert CanTransitionTo(s, CANCELLED);
      false
  }

  /** The statuses other than `s` that `s` may move to in one step. */
  function Successors(s: ReturnStatus): (r: set<ReturnStatus>)
    ensures forall t :: t in r <==> t != s && CanTransitionTo(s, t)
  {
    match s
    case REQUESTED => {APPROVED, REJECTED, CANCELLED}
    case APPROVED => {IN_TRANSIT, CANCELLED}
    case IN_TRANSIT => {RECEIVED, CANCELLED}
    case RECEIVED => {COMPLETED, CANCELLED}
    case COMPLETED => {}
    case REJECTED => {}
    case CANCELLED => {}
  }

  /** CANCELLED is one step away from exactly the non-terminal statuses. */
  lemma CancellableExactlyWhenOpen(s: ReturnStatus)
    requires s != CANCELLED
    ensures CanTransitionTo(s, CANCELLED) <==> !IsTerminal(s)
  {
  }

  /** Apart from re-applying it, COMPLETED is entered only from RECEIVED. */
  lemma CompletedOnlyFromReceived(s: ReturnStatus)
    requires s != COMPLETED
    ensures CanTransitionTo(s, COMPLETED) <==> s == RECEIVED
  {
  }

  /** COMPLETED, REJECTED and CANCELLED are the terminal statuses, and the only ones. */
  lemma TerminalReturnStatuses(s: ReturnStatus)
    ensures IsTerminal(s) <==> s == COMPLETED || s == REJECTED || s == CANCELLED
  {
  }

  /** A sequence of statuses in which each consecutive pair is a permitted
      transition (self-loops included). */
  predicate IsPath(p: seq<ReturnStatus>)
  {
    forall k :: 0 < k < |p| ==> CanTransitionTo(p[k - 1], p[k])
  }

  ghost predicate Reachable(from: ReturnStatus, to: ReturnStatus)
  {
    exists p :: IsPath(p) && |p| > 0 && p[0] == from && p[|p| - 1] == to
  }

  /** Along any path, the enum ordinal never decreases. */
  lemma {:induction false} PathOrdinalsMonotone(p: seq<ReturnStatus>, i: nat, j: nat)
    requires IsPath(p)
    requires i <= j < |p|
    ensures Ordinal(p[i]) <= Ordinal(p[j])
  {
    if i < j {
      PathOrdinalsMonotone(p, i, j - 1);
      assert CanTransitionTo(p[j - 1], p[j]);
    }
  }

  lemma OrdinalInjective(a: ReturnStatus, b: ReturnStatus)
    requires Ordinal(a) == Ordinal(b)
    ensures a == b
  {
  }

  /** There is no cycle in the table other than self-loops. */
  lemma ReachableAntisymmetric(a: ReturnStatus, b: ReturnStatus)
    requires Reachable(a, b) && Reachable(b, a)
    ensures a == b
  {
    var p :| IsPath(p) && |p| > 0 && p[0] == a && p[|p| - 1] == b;
    var q :| IsPath(q) && |q| > 0 && q[0] == b && q[|q| - 1] == a;
    PathOrdinalsMonotone(p, 0, |p| - 1);
    PathOrdinalsMonotone(q, 0, |q| - 1);
    OrdinalInjective(a, b);
  }

  /** Once a path visits a terminal status it stays there. */
  lemma {:induction false} TerminalIsAbsorbing(p: seq<ReturnStatus>, i: nat, j: nat)
    requires IsPath(p)
    requires i <= j < |p|
    requires IsTerminal(p[i])
    ensures p[j] == p[i]
  {
    if i < j {
      TerminalIsAbsorbing(p, i, j - 1);
      assert CanTransitionTo(p[j - 1], p[j]);
    }
  }

  /** Every path that starts before COMPLETED and ends at COMPLETED passes
      through RECEIVED: the approval, transit and receipt chain cannot be skipped. */
  lemma {:induction false} CompletionPassesThroughReceived(p: seq<ReturnStatus>)
    requires IsPath(p)
    requires |p| > 0 && p[0] != COMPLETED && p[|p| - 1] == COMPLETED
    ensures exists k :: 0 <= k < |p| && p[k] == RECEIVED
  {
    var n := |p| - 1;
    if p[n - 1] == COMPLETED {
      CompletionPassesThroughReceived(p[..n]);
      var k :| 0 <= k < n && p[..n][k] == RECEIVED;
      assert p[k] == RECEIVED;
    } else {
      assert CanTransitionTo(p[n - 1], p[n]);
      CompletedOnlyFromReceived(p[n - 1]);
      assert p[n - 1] == RECEIVED;
    }
  }

  /** The full forward chain is a legal path, so COMPLETED is reachable from
      REQUESTED, and so are both other terminal statuses. */
  lemma TerminalsReachableFromRequested()
    ensures Reachable(REQUESTED, COMPLETED)
    ensures Reachable(REQUESTED, REJECTED)
    ensures Reachable(REQUESTED, CANCELLED)
  {
    var full := [REQUESTED, APPROVED, IN_TRANSIT, RECEIVED, COMPLETED];
    assert IsPath(full);
    var rejected := [REQUESTED, REJECTED];
    assert IsPath(rejected);
    var cancelled := [REQUESTED, CANCELLED];
    assert IsPath(cancelled);
  }
}
