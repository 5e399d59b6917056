/** `InvoiceListener.handleInvoice`: the consumer of invoice jobs. A job whose
    ledger row is already SUCCESS is skipped; otherwise the invoice is rendered
    and the row, when there is one, records the outcome. A message whose job
    has no ledger row is still rendered, on every delivery. */
module InvoiceListener {
  import opened Domain
  import opened Messaging
  import opened JobLogs
  import opened Repositories
  import Decimal

  const PDF_BYTES_PREFIX := "pdfBytes="

  /** The result note recorded for a PDF of `n` bytes. */
  function PdfBytesMeta(n: nat): (meta: string)
    ensures |meta| > |PDF_BYTES_PREFIX| && meta[..|PDF_BYTES_PREFIX|] == PDF_BYTES_PREFIX
    ensures forall k :: |PDF_BYTES_PREFIX| <= k < |meta| ==> Decimal.IsDigit(meta[k])
    ensures Decimal.ParseDecimal(meta[|PDF_BYTES_PREFIX|..]) == n
  {
    var digits := Decimal.DecimalString(n);
    Decimal.DecimalRoundTrip(n);
    assert (PDF_BYTES_PREFIX + digits)[|PDF_BYTES_PREFIX|..] == digits;
    PDF_BYTES_PREFIX + digits
  }

  /** The row after one rendering attempt on a row that was not yet SUCCESS:
      SUCCESS with the byte count when the PDF was produced, FAILED with the
      message on an I/O error, and still IN_PROGRESS when the renderer threw
      anything else (the outer handler only logs). */
  function AfterRender(row: JobRow, outcome: RenderOutcome): (r: JobRow)
    ensures SameIdentity(row, r)
    ensures r.status == SUCCESS <==> outcome.Rendered?
    ensures r.status == FAILED <==> outcome.RenderIoError?
    ensures r.status == IN_PROGRESS <==> outcome.RenderCrashed?
    ensures outcome.Rendered? ==> r.resultMeta == Some(PdfBytesMeta(outcome.byteCount)) && r.lastError == row.lastError
    ensures outcome.RenderIoError? ==> r.lastError == Some(outcome.message) && r.resultMeta == row.resultMeta
    ensures outcome.RenderCrashed? ==> r.lastError == row.lastError && r.resultMeta == row.resultMeta
  {
    match outcome
    case Rendered(n) => row.(status := SUCCESS, resultMeta := Some(PdfBytesMeta(n)))
    case RenderIoError(msg) => row.(status := FAILED, lastError := Some(msg))
    case RenderCrashed => row.(status := IN_PROGRESS)
  }

  /** The effect of one delivery: the new ledger, and whether the renderer ran. */
  datatype Delivery = Delivery(ledger: map<Uuid, JobRow>, rendered: bool)

  /** One delivery of `m` whose rendering ends in `outcome`. */
  function InvoiceDelivery(ledger: map<Uuid, JobRow>, m: InvoiceJob, outcome: RenderOutcome): (d: Delivery)
    ensures d.ledger.Keys == ledger.Keys
    ensures forall j :: j in ledger && j != m.jobId ==> d.ledger[j] == ledger[j]
    ensures d.rendered <==> m.jobId !in ledger || ledger[m.jobId].status != SUCCESS
    ensures m.jobId in ledger ==> SameIdentity(ledger[m.jobId], d.ledger[m.jobId])
  {
    if m.jobId !in ledger then Delivery(ledger, true)
    else if ledger[m.jobId].status == SUCCESS then Delivery(ledger, false)
    else Delivery(ledger[m.jobId := AfterRender(ledger[m.jobId], outcome)], true)
  }

  /** A job already recorded as SUCCESS is neither rendered nor touched again. */
  lemma CompletedInvoiceIsSkipped(ledger: map<Uuid, JobRow>, m: InvoiceJob, outcome: RenderOutcome)
    requires m.jobId in ledger && ledger[m.jobId].status == SUCCESS
    ensures InvoiceDelivery(ledger, m, outcome) == Delivery(ledger, false)
  {
  }

  /** A delivery that renders successfully makes every later delivery of the
      same job a no-op. */
  lemma RedeliveryAfterSuccessIsNoop(ledger: map<Uuid, JobRow>, m: InvoiceJob, n: nat, later: RenderOutcome)
    requires m.jobId in ledger
    ensures var d := InvoiceDelivery(ledger, m, Rendered(n));
            InvoiceDelivery(d.ledger, m, later) == Delivery(d.ledger, false)
  {
    var d := InvoiceDelivery(ledger, m, Rendered(n));
    if ledger[m.jobId].status != SUCCESS {
      assert d.ledger[m.jobId] == AfterRender(ledger[m.jobId], Rendered(n));
    }
  }

  /** A delivery that failed, or whose renderer crashed, leaves the job open:
      the next delivery renders again. */
  lemma FailedInvoiceIsRetried(ledger: map<Uuid, JobRow>, m: InvoiceJob, outcome: RenderOutcome, later: RenderOutcome)
    requires m.jobId in ledger && ledger[m.jobId].status != SUCCESS
    requires !outcome.Rendered?
    ensures InvoiceDelivery(InvoiceDelivery(ledger, m, outcome).ledger, m, later).rendered
  {
    assert InvoiceDelivery(ledger, m, outcome).ledger[m.jobId] == AfterRender(ledger[m.jobId], outcome);
  }

  /** How many deliveries of `m`, with the given successive rendering outcomes,
      ran the renderer to a PDF. */
  function SuccessfulRenders(ledger: map<Uuid, JobRow>, m: InvoiceJob, outcomes: seq<RenderOutcome>): nat
    decreases |outcomes|
  {
    if outcomes == [] then 0
    else
      var d := InvoiceDelivery(ledger, m, outcomes[0]);
      (if d.rendered && outcomes[0].Rendered? then 1 else 0) + SuccessfulRenders(d.ledger, m, outcomes[1..])
  }

  /** How many of the outcomes produced a PDF. */
  function CountRendered(outcomes: seq<RenderOutcome>): nat
  {
    if outcomes == [] then 0
    else (if outcomes[0].Rendered? then 1 else 0) + CountRendered(outcomes[1..])
  }

  /** The idempotency the ledger buys: whatever the outcomes of repeated
      deliveries, a recorded job has its invoice produced at most once, and
      never again once it is SUCCESS. */
  lemma {:induction false} RecordedInvoiceRenderedAtMostOnce(
    ledger: map<Uuid, JobRow>, m: InvoiceJob, outcomes: seq<RenderOutcome>)
    requires m.jobId in ledger
    ensures SuccessfulRenders(ledger, m, outcomes) <= 1
    ensures ledger[m.jobId].status == SUCCESS ==> SuccessfulRenders(ledger, m, outcomes) == 0
  {
    if outcomes != [] {
      var d := InvoiceDelivery(ledger, m, outcomes[0]);
      RecordedInvoiceRenderedAtMostOnce(d.ledger, m, outcomes[1..]);
      if ledger[m.jobId].status != SUCCESS && outcomes[0].Rendered? {
        assert d.ledger[m.jobId] == AfterRender(ledger[m.jobId], outcomes[0]);
      }
    }
  }

  /** Without a ledger row nothing guards the renderer: every delivery that
      renders successfully produces another invoice. */
  lemma {:induction false} UnrecordedInvoiceRenderedEveryTime(
    ledger: map<Uuid, JobRow>, m: InvoiceJob, outcomes: seq<RenderOutcome>)
    requires m.jobId !in ledger
    ensures SuccessfulRenders(ledger, m, outcomes) == CountRendered(outcomes)
  {
    if outcomes != [] {
      UnrecordedInvoiceRenderedEveryTime(ledger, m, outcomes[1..]);
    }
  }

  /** For a message taken from the broker of a consistent store, the order it
      renders for is the order the job row was recorded for. */
  lemma BrokerInvoiceMatchesRow(ledger: map<Uuid, JobRow>, broker: seq<Message>, k: int)
    requires MessagesPublished(ledger, broker)
    requires 0 <= k < |broker| && broker[k].payload.InvoicePayload?
    ensures var j := broker[k].payload.invoice;
            j.jobId in ledger && ledger[j.jobId].relatedOrderId == j.orderId
            && ledger[j.jobId].jobType == INVOICE_GENERATION
  {
    assert Announces(broker[k], ledger[broker[k].payload.JobId()]);
  }

  /** One delivery keeps the store consistent. */
  lemma DeliveryPreservesConsistency(
    orders: map<Uuid, Order>, orderHistory: seq<OrderStateHistory>,
    returnRequests: map<Uuid, ReturnRequest>, returnHistory: seq<ReturnStateHistory>,
    ledger: map<Uuid, JobRow>, broker: seq<Message>, m: InvoiceJob, outcome: RenderOutcome)
    requires ConsistentState(orders, orderHistory, returnRequests, returnHistory, ledger, broker)
    ensures ConsistentState(orders, orderHistory, returnRequests, returnHistory,
                            InvoiceDelivery(ledger, m, outcome).ledger, broker)
  {
    if m.jobId in ledger && ledger[m.jobId].status != SUCCESS {
      RowRewritePreservesLedger(orders, returnRequests, ledger, broker, m.jobId,
                                AfterRender(ledger[m.jobId], outcome));
    }
  }

  /** The setters `handleInvoice` applies once the renderer has returned or
      thrown; nothing is set when it threw something other than an I/O error. */
  method RecordRender(job: JobLog, outcome: RenderOutcome)
    requires job.status == IN_PROGRESS
    modifies job
    ensures job.Row() == AfterRender(old(job.Row()), outcome)
  {
    match outcome {
      case Rendered(n) =>
        job.SetStatus(SUCCESS);
        job.SetResultMeta(Some(PdfBytesMeta(n)));
      case RenderIoError(msg) =>
        job.SetStatus(FAILED);
        job.SetLastError(Some(msg));
      case RenderCrashed =>
    }
  }

  /** The part of `handleInvoice` that runs for a ledger row not yet SUCCESS:
      save it IN_PROGRESS, render, and save the outcome unless the renderer
      threw something other than an I/O error. */
  method RenderRecorded(s: Store, job: JobLog, message: InvoiceJob, outcome: RenderOutcome)
    requires s.Valid() && message.jobId in s.ledger
    requires job.Row() == s.ledger[message.jobId] && job.status != SUCCESS
    modifies s, job
    ensures s.ledger == old(s.ledger)[message.jobId := AfterRender(old(s.ledger)[message.jobId], outcome)]
    ensures s.renders == old(s.renders) + [RenderCall(message.orderId, message.customerEmail)]
    ensures s.orders == old(s.orders) && s.orderHistory == old(s.orderHistory)
    ensures s.returnRequests == old(s.returnRequests) && s.returnHistory == old(s.returnHistory)
    ensures s.broker == old(s.broker) && s.gatewayCalls == old(s.gatewayCalls)
  {
    job.SetStatus(IN_PROGRESS);
    s.SaveJob(job);
    s.renders := s.renders + [RenderCall(message.orderId, message.customerEmail)];
    RecordRender(job, outcome);
    if !outcome.RenderCrashed? {
      s.SaveJob(job);
    }
  }

  /** `handleInvoice`, with the renderer's behaviour given as `outcome`. */
  method HandleInvoice(s: Store, message: InvoiceJob, outcome: RenderOutcome)
    requires s.Valid()
    modifies s
    ensures var d := InvoiceDelivery(old(s.ledger), message, outcome);
            && s.ledger == d.ledger
            && s.renders == old(s.renders) + (if d.rendered then [RenderCall(message.orderId, message.customerEmail)] else [])
    ensures s.orders == old(s.orders) && s.orderHistory == old(s.orderHistory)
    ensures s.returnRequests == old(s.returnRequests) && s.returnHistory == old(s.returnHistory)
    ensures s.broker == old(s.broker) && s.gatewayCalls == old(s.gatewayCalls)
    ensures s.Valid()
    ensures old(s.Consistent()) ==> s.Consistent()
  {
    ghost var wasConsistent := s.Consistent();
    var job := s.FindJob(message.jobId);
    if job == null {
      s.renders := s.renders + [RenderCall(message.orderId, message.customerEmail)];
      return;
    }
    if job.status == SUCCESS {
      return;
    }
    RenderRecorded(s, job, message, outcome);
    if wasConsistent {
      DeliveryPreservesConsistency(old(s.orders), old(s.orderHistory), old(s.returnRequests),
                                   old(s.returnHistory), old(s.ledger), old(s.broker), message, outcome);
    }
  }
}
