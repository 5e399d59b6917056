/** `RefundListener.handleRefund`: the consumer of refund jobs. An unknown job
    and a job already SUCCESS are skipped without calling the gateway; a job
    whose return is missing fails without calling it; otherwise the gateway is
    called with the row's idempotency key, and on success the job becomes
    SUCCESS and the return COMPLETED. The return's status is set directly,
    without consulting the return transition table and without a history row. */
module RefundListener {
  import opened Domain
  import opened Messaging
  import opened JobLogs
  import opened Repositories
  import opened ReturnStatuses
  import ReturnService

  const RETURN_NOT_FOUND_PREFIX := "ReturnRequest not found: "
  const GATEWAY_REF_PREFIX := "gatewayRef="
  /** The amount is not tracked on a return; every request asks for 0 cents. */
  const REFUND_AMOUNT_CENTS := 0

  /** The error recorded when the message names a return that is not stored. */
  function ReturnNotFoundMessage(returnId: Uuid): (msg: string)
    ensures |msg| == |RETURN_NOT_FOUND_PREFIX| + |returnId.ToString()|
    ensures msg[..|RETURN_NOT_FOUND_PREFIX|] == RETURN_NOT_FOUND_PREFIX
    ensures msg[|RETURN_NOT_FOUND_PREFIX|..] == returnId.ToString()
  {
    var msg := RETURN_NOT_FOUND_PREFIX + returnId.ToString();
    assert msg[|RETURN_NOT_FOUND_PREFIX|..] == returnId.ToString();
    msg
  }

  /** The request handed to the gateway for message `m` and ledger row `row`:
      the message's payment reference and currency, the row's idempotency key. */
  function GatewayRequest(m: RefundJob, row: JobRow): (req: RefundRequest)
    ensures req.paymentReference == m.paymentReference && req.currency == m.currency
    ensures req.amountCents == REFUND_AMOUNT_CENTS
    ensures RowWellFormed(row) ==> req.idempotencyKey == row.id.ToString()
  {
    RefundRequest(m.paymentReference, row.idempotencyKey, m.currency, REFUND_AMOUNT_CENTS)
  }

  /** The row after the gateway answered or threw: SUCCESS with the gateway's
      reference when it accepted, FAILED with its message otherwise. */
  function AfterGateway(row: JobRow, outcome: GatewayOutcome): (r: JobRow)
    ensures SameIdentity(row, r)
    ensures r.status == SUCCESS <==> outcome.Refunded?
    ensures r.status == FAILED <==> !outcome.Refunded?
    ensures outcome.Refunded? ==>
              r.resultMeta == Some(GATEWAY_REF_PREFIX + outcome.gatewayReference) && r.lastError == row.lastError
    ensures outcome.Declined? ==> r.lastError == Some(outcome.message) && r.resultMeta == row.resultMeta
    ensures outcome.GatewayRaised? ==> r.lastError == Some(outcome.errorMessage) && r.resultMeta == row.resultMeta
  {
    match outcome
    case Refunded(ref) => row.(status := SUCCESS, resultMeta := Some(GATEWAY_REF_PREFIX + ref))
    case Declined(msg) => row.(status := FAILED, lastError := Some(msg))
    case GatewayRaised(msg) => row.(status := FAILED, lastError := Some(msg))
  }

  /** The gateway request and the recorded outcome do not depend on the
      status the row had when the gateway was called. */
  lemma IncomingStatusIsIrrelevant(row: JobRow, status: JobStatus, m: RefundJob, outcome: GatewayOutcome)
    ensures AfterGateway(row.(status := status), outcome) == AfterGateway(row, outcome)
    ensures GatewayRequest(m, row.(status := status)) == GatewayRequest(m, row)
  {
  }

  /** Saving a row twice leaves only the second write. */
  lemma OverwriteTwice(ledger: map<Uuid, JobRow>, id: Uuid, first: JobRow, second: JobRow)
    ensures ledger[id := first][id := second] == ledger[id := second]
  {
  }

  /** A job row is open when it is recorded and not yet SUCCESS. */
  predicate Open(ledger: map<Uuid, JobRow>, jobId: Uuid)
  {
    jobId in ledger && ledger[jobId].status != SUCCESS
  }

  /** The effect of one delivery: the new ledger and returns, and the gateway
      requests made (none or one). */
  datatype RefundStep = RefundStep(
    ledger: map<Uuid, JobRow>,
    returnRequests: map<Uuid, ReturnRequest>,
    calls: seq<RefundRequest>)

  /** One delivery of `m` whose gateway call ends in `outcome`. */
  function RefundDelivery(ledger: map<Uuid, JobRow>, returnRequests: map<Uuid, ReturnRequest>,
                          m: RefundJob, outcome: GatewayOutcome): (d: RefundStep)
    ensures d.ledger.Keys == ledger.Keys && d.returnRequests.Keys == returnRequests.Keys
    ensures forall j :: j in ledger && j != m.jobId ==> d.ledger[j] == ledger[j]
    ensures forall id :: id in returnRequests && id != m.returnId ==> d.returnRequests[id] == returnRequests[id]
    ensures m.jobId in ledger ==> SameIdentity(ledger[m.jobId], d.ledger[m.jobId])
    ensures |d.calls| <= 1
    ensures |d.calls| == 1 <==> Open(ledger, m.jobId) && m.returnId in returnRequests
  {
    if !Open(ledger, m.jobId) then RefundStep(ledger, returnRequests, [])
    else if m.returnId !in returnRequests then
      var row := ledger[m.jobId].(status := FAILED, lastError := Some(ReturnNotFoundMessage(m.returnId)));
      RefundStep(ledger[m.jobId := row], returnRequests, [])
    else
      var row := ledger[m.jobId];
      var rr := returnRequests[m.returnId];
      var returns' := if outcome.Refunded? then returnRequests[m.returnId := rr.(status := COMPLETED)]
                      else returnRequests;
      RefundStep(ledger[m.jobId := AfterGateway(row, outcome)], returns', [GatewayRequest(m, row)])
  }

  /** Unknown and completed jobs are skipped: nothing changes, nothing is called. */
  lemma ClosedRefundIsSkipped(ledger: map<Uuid, JobRow>, returnRequests: map<Uuid, ReturnRequest>,
                              m: RefundJob, outcome: GatewayOutcome)
    requires !Open(ledger, m.jobId)
    ensures RefundDelivery(ledger, returnRequests, m, outcome) == RefundStep(ledger, returnRequests, [])
  {
  }

  /** A missing return fails the job with the not-found message and calls nothing. */
  lemma MissingReturnFailsJob(ledger: map<Uuid, JobRow>, returnRequests: map<Uuid, ReturnRequest>,
                              m: RefundJob, outcome: GatewayOutcome)
    requires Open(ledger, m.jobId) && m.returnId !in returnRequests
    ensures var d := RefundDelivery(ledger, returnRequests, m, outcome);
            && d.ledger[m.jobId].status == FAILED
            && d.ledger[m.jobId].lastError == Some(ReturnNotFoundMessage(m.returnId))
            && d.returnRequests == returnRequests && d.calls == []
  {
  }

  /** Every gateway request carries the message's reference and currency, the
      row's idempotency key and a zero amount; on a well-formed row that key
      is the job id's text, so every retry of a job reuses the same key. */
  lemma GatewayRequestCarriesJobKey(ledger: map<Uuid, JobRow>, returnRequests: map<Uuid, ReturnRequest>,
                                    m: RefundJob, outcome: GatewayOutcome)
    requires LedgerKeyed(ledger) && LedgerWellFormed(ledger)
    ensures var d := RefundDelivery(ledger, returnRequests, m, outcome);
            forall k :: 0 <= k < |d.calls| ==>
              d.calls[k] == RefundRequest(m.paymentReference, m.jobId.ToString(), m.currency, 0)
  {
    if m.jobId in ledger {
      assert RowWellFormed(ledger[m.jobId]);
    }
  }

  /** The return becomes COMPLETED by a delivery exactly when its job was
      open, it was stored and not yet COMPLETED, and the gateway accepted. */
  lemma ReturnCompletedExactlyOnGatewaySuccess(
    ledger: map<Uuid, JobRow>, returnRequests: map<Uuid, ReturnRequest>,
    m: RefundJob, outcome: GatewayOutcome)
    requires m.returnId in returnRequests && returnRequests[m.returnId].status != COMPLETED
    ensures var d := RefundDelivery(ledger, returnRequests, m, outcome);
            d.returnRequests[m.returnId].status == COMPLETED <==> Open(ledger, m.jobId) && outcome.Refunded?
    ensures var d := RefundDelivery(ledger, returnRequests, m, outcome);
            d.returnRequests[m.returnId] == returnRequests[m.returnId]
            || d.returnRequests[m.returnId] == returnRequests[m.returnId].(status := COMPLETED)
  {
  }

  /** The completion ignores the return transition table: a CANCELLED or
      REJECTED return, from which COMPLETED is not a permitted step, is
      completed all the same. */
  lemma RefundBypassesReturnTable(
    ledger: map<Uuid, JobRow>, returnRequests: map<Uuid, ReturnRequest>,
    m: RefundJob, ref: string)
    requires Open(ledger, m.jobId) && m.returnId in returnRequests
    requires returnRequests[m.returnId].status in {CANCELLED, REJECTED}
    ensures !CanTransitionTo(returnRequests[m.returnId].status, COMPLETED)
    ensures RefundDelivery(ledger, returnRequests, m, Refunded(ref)).returnRequests[m.returnId].status == COMPLETED
  {
  }

  /** A delivery the gateway accepts makes every later delivery of the same
      job a no-op. */
  lemma RefundRedeliveryAfterSuccessIsNoop(
    ledger: map<Uuid, JobRow>, returnRequests: map<Uuid, ReturnRequest>,
    m: RefundJob, ref: string, later: GatewayOutcome)
    requires m.jobId in ledger && m.returnId in returnRequests
    ensures var d := RefundDelivery(ledger, returnRequests, m, Refunded(ref));
            RefundDelivery(d.ledger, d.returnRequests, m, later) == RefundStep(d.ledger, d.returnRequests, [])
  {
    var d := RefundDelivery(ledger, returnRequests, m, Refunded(ref));
    if Open(ledger, m.jobId) {
      assert d.ledger[m.jobId] == AfterGateway(ledger[m.jobId], Refunded(ref));
    }
  }

  /** A declined or failed call leaves the job open: the next delivery calls
      the gateway again. */
  lemma FailedRefundIsRetried(
    ledger: map<Uuid, JobRow>, returnRequests: map<Uuid, ReturnRequest>,
    m: RefundJob, outcome: GatewayOutcome, later: GatewayOutcome)
    requires Open(ledger, m.jobId) && m.returnId in returnRequests && !outcome.Refunded?
    ensures var d := RefundDelivery(ledger, returnRequests, m, outcome);
            |RefundDelivery(d.ledger, d.returnRequests, m, later).calls| == 1
  {
    assert RefundDelivery(ledger, returnRequests, m, outcome).ledger[m.jobId]
        == AfterGateway(ledger[m.jobId], outcome);
  }

  /** The gateway requests made by successive deliveries of `m` with the given
      outcomes, and how many of them the gateway accepted. */
  function RefundCalls(ledger: map<Uuid, JobRow>, returnRequests: map<Uuid, ReturnRequest>,
                       m: RefundJob, outcomes: seq<GatewayOutcome>): seq<RefundRequest>
    decreases |outcomes|
  {
    if outcomes == [] then []
    else
      var d := RefundDelivery(ledger, returnRequests, m, outcomes[0]);
      d.calls + RefundCalls(d.ledger, d.returnRequests, m, outcomes[1..])
  }

  function SuccessfulRefunds(ledger: map<Uuid, JobRow>, returnRequests: map<Uuid, ReturnRequest>,
                             m: RefundJob, outcomes: seq<GatewayOutcome>): nat
    decreases |outcomes|
  {
    if outcomes == [] then 0
    else
      var d := RefundDelivery(ledger, returnRequests, m, outcomes[0]);
      (if |d.calls| == 1 && outcomes[0].Refunded? then 1 else 0)
        + SuccessfulRefunds(d.ledger, d.returnRequests, m, outcomes[1..])
  }

  /** The idempotency the ledger buys: however often a job is redelivered and
      whatever the gateway answers, at most one refund is accepted for it, and
      none once its row is SUCCESS. */
  lemma {:induction false} RefundAcceptedAtMostOnce(
    ledger: map<Uuid, JobRow>, returnRequests: map<Uuid, ReturnRequest>,
    m: RefundJob, outcomes: seq<GatewayOutcome>)
    ensures SuccessfulRefunds(ledger, returnRequests, m, outcomes) <= 1
    ensures !Open(ledger, m.jobId) ==> SuccessfulRefunds(ledger, returnRequests, m, outcomes) == 0
  {
    if outcomes != [] {
      var d := RefundDelivery(ledger, returnRequests, m, outcomes[0]);
      RefundAcceptedAtMostOnce(d.ledger, d.returnRequests, m, outcomes[1..]);
      if |d.calls| == 1 && outcomes[0].Refunded? {
        assert d.ledger[m.jobId] == AfterGateway(ledger[m.jobId], outcomes[0]);
        assert !Open(d.ledger, m.jobId);
      } else if !Open(ledger, m.jobId) {
        assert d.ledger == ledger;
      }
    }
  }

  /** Every retry of a recorded job reaches the gateway with the same
      idempotency key, the job id's text; an unknown job never reaches it. */
  lemma {:induction false} RetriesShareIdempotencyKey(
    ledger: map<Uuid, JobRow>, returnRequests: map<Uuid, ReturnRequest>,
    m: RefundJob, outcomes: seq<GatewayOutcome>)
    requires LedgerKeyed(ledger) && LedgerWellFormed(ledger)
    ensures forall c :: c in RefundCalls(ledger, returnRequests, m, outcomes) ==>
              c.idempotencyKey == m.jobId.ToString()
    ensures m.jobId !in ledger ==> RefundCalls(ledger, returnRequests, m, outcomes) == []
  {
    if outcomes != [] {
      var d := RefundDelivery(ledger, returnRequests, m, outcomes[0]);
      GatewayRequestCarriesJobKey(ledger, returnRequests, m, outcomes[0]);
      if m.jobId in ledger {
        assert RowWellFormed(ledger[m.jobId]);
      }
      assert LedgerKeyed(d.ledger) && LedgerWellFormed(d.ledger);
      RetriesShareIdempotencyKey(d.ledger, d.returnRequests, m, outcomes[1..]);
      var rest := RefundCalls(d.ledger, d.returnRequests, m, outcomes[1..]);
      assert RefundCalls(ledger, returnRequests, m, outcomes) == d.calls + rest;
      forall c | c in d.calls + rest
        ensures c.idempotencyKey == m.jobId.ToString()
      {
        if c in d.calls {
          assert d.calls[0] == c;
        }
      }
    }
  }

  /** For a message taken from the broker of a consistent store, the return it
      loads is the job's own return, and it is stored: the not-found path is
      reached only by messages the publisher did not send. */
  lemma BrokerRefundFindsItsReturn(
    orders: map<Uuid, Order>, returnRequests: map<Uuid, ReturnRequest>,
    ledger: map<Uuid, JobRow>, broker: seq<Message>, k: int)
    requires LinksResolve(orders, returnRequests, ledger) && MessagesPublished(ledger, broker)
    requires 0 <= k < |broker| && broker[k].payload.RefundPayload?
    ensures var j := broker[k].payload.refund;
            && j.jobId in ledger && ledger[j.jobId].relatedReturnId == Some(j.returnId)
            && j.returnId in returnRequests
  {
    assert Announces(broker[k], ledger[broker[k].payload.JobId()]);
  }

  /** One delivery keeps the store consistent. */
  lemma DeliveryPreservesConsistency(
    orders: map<Uuid, Order>, orderHistory: seq<OrderStateHistory>,
    returnRequests: map<Uuid, ReturnRequest>, returnHistory: seq<ReturnStateHistory>,
    ledger: map<Uuid, JobRow>, broker: seq<Message>, m: RefundJob, outcome: GatewayOutcome)
    requires ConsistentState(orders, orderHistory, returnRequests, returnHistory, ledger, broker)
    ensures var d := RefundDelivery(ledger, returnRequests, m, outcome);
            ConsistentState(orders, orderHistory, d.returnRequests, returnHistory, d.ledger, broker)
  {
    var d := RefundDelivery(ledger, returnRequests, m, outcome);
    if Open(ledger, m.jobId) {
      RowRewritePreservesLedger(orders, returnRequests, ledger, broker, m.jobId, d.ledger[m.jobId]);
      assert ConsistentState(orders, orderHistory, returnRequests, returnHistory, d.ledger, broker);
      if m.returnId in returnRequests && outcome.Refunded? {
        ReturnService.ReturnStatusUpdatePreservesConsistency(
          orders, orderHistory, returnRequests, returnHistory, d.ledger, broker, m.returnId, COMPLETED);
      }
    }
  }

  /** The setters `handleRefund` applies after the gateway answered or threw. */
  method RecordGateway(job: JobLog, outcome: GatewayOutcome)
    modifies job
    ensures job.Row() == AfterGateway(old(job.Row()), outcome)
  {
    match outcome {
      case Refunded(ref) =>
        job.SetStatus(SUCCESS);
        job.SetResultMeta(Some(GATEWAY_REF_PREFIX + ref));
      case Declined(msg) =>
        job.SetStatus(FAILED);
        job.SetLastError(Some(msg));
      case GatewayRaised(msg) =>
        job.SetStatus(FAILED);
        job.SetLastError(Some(msg));
    }
  }

  /** The gateway part of `handleRefund`, for an open job whose return is
      stored and whose row is already saved IN_PROGRESS: call the gateway,
      record its answer, complete the return on success, and save the row. */
  method CallGateway(s: Store, job: JobLog, message: RefundJob, outcome: GatewayOutcome)
    requires s.Valid() && message.jobId in s.ledger && message.returnId in s.returnRequests
    requires job.Row() == s.ledger[message.jobId]
    modifies s, job
    ensures s.ledger == old(s.ledger)[message.jobId := AfterGateway(old(job.Row()), outcome)]
    ensures s.returnRequests == if outcome.Refunded?
                                then old(s.returnRequests)[message.returnId :=
                                       old(s.returnRequests)[message.returnId].(status := COMPLETED)]
                                else old(s.returnRequests)
    ensures s.gatewayCalls == old(s.gatewayCalls) + [GatewayRequest(message, old(job.Row()))]
    ensures s.orders == old(s.orders) && s.orderHistory == old(s.orderHistory)
    ensures s.returnHistory == old(s.returnHistory)
    ensures s.broker == old(s.broker) && s.renders == old(s.renders)
  {
    var request := RefundRequest(message.paymentReference, job.idempotencyKey, message.currency, REFUND_AMOUNT_CENTS);
    s.gatewayCalls := s.gatewayCalls + [request];
    RecordGateway(job, outcome);
    if outcome.Refunded? {
      var rr := s.returnRequests[message.returnId];
      rr := rr.(status := COMPLETED);
      s.returnRequests := s.returnRequests[message.returnId := rr];
    }
    s.SaveJob(job);
  }

  /** The job of a refund whose return is missing is saved FAILED with the
      not-found message. */
  method FailMissingReturn(s: Store, job: JobLog, returnId: Uuid)
    modifies s`ledger, job
    ensures job.Row() == old(job.Row()).(status := FAILED, lastError := Some(ReturnNotFoundMessage(returnId)))
    ensures s.ledger == old(s.ledger)[job.id := job.Row()]
  {
    job.SetStatus(FAILED);
    job.SetLastError(Some(ReturnNotFoundMessage(returnId)));
    s.SaveJob(job);
  }

  /** The part of `handleRefund` that runs for an open job: save it
      IN_PROGRESS, then either fail it for a missing return or call the gateway. */
  method RefundOpenJob(s: Store, job: JobLog, message: RefundJob, outcome: GatewayOutcome)
    requires s.Valid() && Open(s.ledger, message.jobId)
    requires job.Row() == s.ledger[message.jobId]
    modifies s, job
    ensures var d := RefundDelivery(old(s.ledger), old(s.returnRequests), message, outcome);
            && s.ledger == d.ledger && s.returnRequests == d.returnRequests
            && s.gatewayCalls == old(s.gatewayCalls) + d.calls
    ensures s.orders == old(s.orders) && s.orderHistory == old(s.orderHistory)
    ensures s.returnHistory == old(s.returnHistory)
    ensures s.broker == old(s.broker) && s.renders == old(s.renders)
  {
    ghost var row, ledger := job.Row(), s.ledger;
    job.SetStatus(IN_PROGRESS);
    s.SaveJob(job);
    ghost var started := job.Row();
    if message.returnId !in s.returnRequests {
      FailMissingReturn(s, job, message.returnId);
      assert job.Row() == row.(status := FAILED, lastError := Some(ReturnNotFoundMessage(message.returnId)));
      OverwriteTwice(ledger, message.jobId, started, job.Row());
      return;
    }
    assert started == row.(status := IN_PROGRESS);
    CallGateway(s, job, message, outcome);
    IncomingStatusIsIrrelevant(row, IN_PROGRESS, message, outcome);
    OverwriteTwice(ledger, message.jobId, started, AfterGateway(row, outcome));
  }

  /** `handleRefund`, with the gateway's behaviour given as `outcome`. */
  method HandleRefund(s: Store, message: RefundJob, outcome: GatewayOutcome)
    requires s.Valid()
    modifies s
    ensures var d := RefundDelivery(old(s.ledger), old(s.returnRequests), message, outcome);
            && s.ledger == d.ledger && s.returnRequests == d.returnRequests
            && s.gatewayCalls == old(s.gatewayCalls) + d.calls
    ensures s.orders == old(s.orders) && s.orderHistory == old(s.orderHistory)
    ensures s.returnHistory == old(s.returnHistory)
    ensures s.broker == old(s.broker) && s.renders == old(s.renders)
    ensures s.Valid()
    ensures old(s.Consistent()) ==> s.Consistent()
  {
    ghost var wasConsistent := s.Consistent();
    var job := s.FindJob(message.jobId);
    if job == null {
      return;
    }
    if job.status == SUCCESS {
      return;
    }
    RefundOpenJob(s, job, message, outcome);
    if wasConsistent {
      DeliveryPreservesConsistency(old(s.orders), old(s.orderHistory), old(s.returnRequests),
                                   old(s.returnHistory), old(s.ledger), old(s.broker), message, outcome);
    }
  }
}
