/** The `JobLog` entity: a mutable ledger row whose setters overwrite one field each. */
module JobLogs {
  import opened Domain

  class JobLog {
    var id: Uuid
    var jobType: JobType
    var relatedOrderId: Uuid
    var relatedReturnId: Option<Uuid>
    var idempotencyKey: string
    var status: JobStatus
    var attempts: int
    var lastError: Option<string>
    var resultMeta: Option<string>

    /** The entity's current field values, as the ledger would persist them. */
    function Row(): JobRow
      reads this
    {
      JobRow(id, jobType, relatedOrderId, relatedReturnId, idempotencyKey,
             status, attempts, lastError, resultMeta)
    }

    /** The six-argument constructor: the given fields are stored as they are,
        the attempt counter starts at 0, error and result are null. */
    constructor (id: Uuid, jobType: JobType, relatedOrderId: Uuid,
                 relatedReturnId: Option<Uuid>, idempotencyKey: string, status: JobStatus)
      ensures Row() == JobRow(id, jobType, relatedOrderId, relatedReturnId,
                              idempotencyKey, status, 0, None, None)
    {
      this.id := id;
      this.jobType := jobType;
      this.relatedOrderId := relatedOrderId;
      this.relatedReturnId := relatedReturnId;
      this.idempotencyKey := idempotencyKey;
      this.status := status;
      this.attempts := 0;
      this.lastError := None;
      this.resultMeta := None;
    }

    /** A managed copy of a persisted row, as a repository lookup returns it. */
    constructor Load(row: JobRow)
      ensures Row() == row
    {
      id := row.id;
      jobType := row.jobType;
      relatedOrderId := row.relatedOrderId;
      relatedReturnId := row.relatedReturnId;
      idempotencyKey := row.idempotencyKey;
      status := row.status;
      attempts := row.attempts;
      lastError := row.lastError;
      resultMeta := row.resultMeta;
    }

    method SetStatus(s: JobStatus)
      modifies this`status
      ensures Row() == old(Row()).(status := s)
    {
      status := s;
    }

    method SetAttempts(n: int)
      modifies this`attempts
      ensures Row() == old(Row()).(attempts := n)
    {
      attempts := n;
    }

    method SetLastError(e: Option<string>)
      modifies this`lastError
      ensures Row() == old(Row()).(lastError := e)
    {
      lastError := e;
    }

    method SetResultMeta(m: Option<string>)
      modifies this`resultMeta
      ensures Row() == old(Row()).(resultMeta := m)
    {
      resultMeta := m;
    }
  }
}
