/**
 What each repository operation does to the tables, stated outright, and the SQL writes it issues to get there.
 */
module OutboxOperations {
  import opened Wrappers
  import opened OutboxTables
  import opened OutboxGuards
  import opened Backoff

  datatype OutboxError =
    | ValueError
    | LeaseLost
    | RetryBudgetExhausted
    | NotFound
    | NotDeadLettered
    | CeilingReached
    | DatabaseError  // a trigger or CHECK raised

  /** One leased delivery intent, carrying its own tenant context and the attempt number that fences it. */
  datatype LeasedDelivery = LeasedDelivery(
    outboxId: nat,
    intent: Intent,
    attemptNumber: int,
    maxAttempts: int,
    leaseOwner: string,
    leaseExpiresAt: Time)
  {
    predicate IsFinalAttempt() {
      attemptNumber >= maxAttempts
    }
  }

  /** What a worker reports about one attempt. */
  datatype Report = Report(
    outcome: AttemptOutcome,
    httpStatus: Option<int>,
    errorClass: Option<string>,
    startedAt: Time,
    completedAt: Time)

  // ---------------------------------------------------------------- enqueue

  function NewRow(intent: Intent, maxAttempts: int): OutboxRow {
    OutboxRow(intent, PENDING, 0, maxAttempts, 0, intent.enqueuedAt, None, None, None, None, intent.enqueuedAt, None)
  }

  /** Insert delivery intent in the caller's open transaction; an existing intent is left alone. */
  function Enqueue(db: Db, id: nat, intent: Intent, maxAttempts: int): Result<Db, OutboxError> {
    var row := NewRow(intent, maxAttempts);
    if maxAttempts < 1 || maxAttempts > MAX_ATTEMPT_CEILING then Err(ValueError)
    else if !Accepts(db, InsertRow(id, row)) then Err(DatabaseError)
    else Ok(Commit(db, InsertRow(id, row)))
  }

  // ------------------------------------------------------------------ lease

  /** The WHERE clause of the worker's lease scan. */
  predicate Eligible(row: OutboxRow, now: Time) {
    && row.nextAttemptAt <= now
    && (row.state == PENDING
        || (row.state == IN_FLIGHT && row.leaseExpiresAt.Some? && row.leaseExpiresAt.value <= now))
    && row.attemptCount < row.maxAttempts
  }

  function LeasedRow(row: OutboxRow, workerId: string, now: Time, leaseSeconds: Time): OutboxRow {
    row.(state := IN_FLIGHT,
         attemptCount := row.attemptCount + 1,
         leaseOwner := Some(workerId),
         leaseExpiresAt := Some(now + leaseSeconds),
         updatedAt := now)
  }

  function LeaseOf(id: nat, leased: OutboxRow): LeasedDelivery
    requires leased.leaseOwner.Some? && leased.leaseExpiresAt.Some?
  {
    LeasedDelivery(id, leased.intent, leased.attemptCount, leased.maxAttempts,
                   leased.leaseOwner.value, leased.leaseExpiresAt.value)
  }

  // --------------------------------------------------------------- outcomes

  /** The fence: this very attempt is still the one in flight, whatever its expiry says. */
  predicate Holds(db: Db, l: LeasedDelivery) {
    && l.outboxId in db.outbox
    && var row := db.outbox[l.outboxId];
       row.state == IN_FLIGHT && row.attemptCount == l.attemptNumber && row.leaseOwner == Some(l.leaseOwner)
  }

  function Evidence(l: LeasedDelivery, r: Report): AttemptEvent {
    AttemptEvent(l.intent.tenantId, l.intent.evaluationId, r.outcome, r.httpStatus, r.errorClass,
                 l.leaseOwner, l.intent.idempotencyKey, r.startedAt, r.completedAt)
  }

  function SettledRow(row: OutboxRow, state: OutboxState, nextAttemptAt: Time, r: Report): OutboxRow {
    row.(state := state,
         nextAttemptAt := nextAttemptAt,
         lastHttpStatus := r.httpStatus,
         lastErrorClass := r.errorClass,
         completedAt := if Terminal(state) then Some(r.completedAt) else None,
         leaseOwner := None,
         leaseExpiresAt := None,
         updatedAt := r.completedAt)
  }

  function FreshClaim(l: LeasedDelivery, at: Time): LedgerRow {
    LedgerRow(l.intent.fingerprint, l.intent.transition, l.intent.destinationHost, l.intent.payloadHash,
              CLAIMED, 0, None, None, at, None)
  }

  /** The first terminal outcome completes the entry, claimed earlier or now; later ones leave it alone. */
  function LedgerEntry(was: Option<LedgerRow>, l: LeasedDelivery, status: LedgerStatus, r: Report): LedgerRow {
    if was.Some? && was.value.status != CLAIMED then was.value
    else (if was.Some? then was.value else FreshClaim(l, r.completedAt)).(
           status := status,
           attemptCount := l.attemptNumber,
           httpStatus := r.httpStatus,
           errorClass := r.errorClass,
           completedAt := Some(r.completedAt))
  }

  function StatusFor(state: OutboxState): LedgerStatus {
    if state == DELIVERED then LEDGER_DELIVERED else LEDGER_FAILED
  }

  /** The tables after an outcome is recorded: evidence appended, ledger completed if terminal, row moved on. */
  function Settle(db: Db, l: LeasedDelivery, state: OutboxState, nextAttemptAt: Time, r: Report): Db
    requires Holds(db, l)
  {
    var key := KeyOf(l.intent);
    db.(outbox := db.outbox[l.outboxId := SettledRow(db.outbox[l.outboxId], state, nextAttemptAt, r)],
        events := db.events[l.outboxId := EventsOf(db, l.outboxId)[l.attemptNumber := Evidence(l, r)]],
        ledger := if Terminal(state)
                  then db.ledger[key := LedgerEntry(LedgerAt(db, key), l, StatusFor(state), r)]
                  else db.ledger)
  }

  function RecordDelivered(db: Db, l: LeasedDelivery, httpStatus: int, startedAt: Time, completedAt: Time)
    : Result<Db, OutboxError>
  {
    if !(200 <= httpStatus < 300) then Err(ValueError)
    else if !Holds(db, l) then Err(LeaseLost)
    else Ok(Settle(db, l, DELIVERED, db.outbox[l.outboxId].nextAttemptAt,
                   Report(ATTEMPT_DELIVERED, Some(httpStatus), None, startedAt, completedAt)))
  }

  function RecordRetry(db: Db, l: LeasedDelivery, r: Report, base: real): Result<Db, OutboxError>
    requires l.attemptNumber >= 1
  {
    if r.outcome !in {RETRYABLE_FAILURE, AMBIGUOUS} then Err(ValueError)
    else if l.IsFinalAttempt() then Err(RetryBudgetExhausted)
    else if !Holds(db, l) then Err(LeaseLost)
    else if !EventChecks(l.attemptNumber, Evidence(l, r)) then Err(DatabaseError)
    else Ok(Settle(db, l, PENDING, r.completedAt + Delay(l.attemptNumber, base, DEFAULT_CAP), r))
  }

  /** A retryable or ambiguous outcome may be buried only once the budget is spent. */
  function RecordDeadLetter(db: Db, l: LeasedDelivery, r: Report): Result<Db, OutboxError> {
    if r.outcome == ATTEMPT_DELIVERED then Err(ValueError)
    else if !Holds(db, l) then Err(LeaseLost)
    else if !EventChecks(l.attemptNumber, Evidence(l, r))
         || !NotBlank(r.errorClass.value)
         || (r.outcome != PERMANENT_FAILURE && !l.IsFinalAttempt()) then Err(DatabaseError)
    else Ok(Settle(db, l, DEAD_LETTER, db.outbox[l.outboxId].nextAttemptAt, r))
  }

  // ---------------------------------------------------------------- redrive

  function RedrivenRow(row: OutboxRow, ceiling: int, now: Time): OutboxRow {
    row.(state := PENDING,
         maxAttempts := ceiling,
         redriveCount := row.redriveCount + 1,
         nextAttemptAt := now,
         completedAt := None,
         leaseOwner := None,
         leaseExpiresAt := None,
         updatedAt := now)
  }

  function NewCeiling(row: OutboxRow, additional: int): int {
    if row.attemptCount + additional <= MAX_ATTEMPT_CEILING then row.attemptCount + additional
    else MAX_ATTEMPT_CEILING
  }

  function Redrive(db: Db, tenantId: string, id: nat, now: Time, additional: int): Result<Db, OutboxError> {
    if additional < 1 then Err(ValueError)
    else if id !in db.outbox || db.outbox[id].intent.tenantId != tenantId then Err(NotFound)
    else
      var row := db.outbox[id];
      if row.state != DEAD_LETTER then Err(NotDeadLettered)
      else if NewCeiling(row, additional) <= row.attemptCount then Err(CeilingReached)
      else Ok(db.(outbox := db.outbox[id := RedrivenRow(row, NewCeiling(row, additional), now)]))
  }

  // ------------------------------------------------- the writes they issue

  /** The statements of `_write_terminal_ledger`; its UPDATE matches only a CLAIMED row. */
  function LedgerWrites(db: Db, l: LeasedDelivery, status: LedgerStatus, r: Report): seq<Write> {
    var key := KeyOf(l.intent);
    [InsertLedger(key, FreshClaim(l, r.completedAt))]
    + if key in db.ledger && db.ledger[key].status != CLAIMED then []
      else [UpdateLedger(key, LedgerEntry(LedgerAt(db, key), l, status, r))]
  }

  function OutcomeWrites(db: Db, l: LeasedDelivery, state: OutboxState, nextAttemptAt: Time, r: Report): seq<Write>
    requires Holds(db, l)
  {
    [InsertEvent(l.outboxId, l.attemptNumber, Evidence(l, r))]
    + (if Terminal(state) then LedgerWrites(db, l, StatusFor(state), r) else [])
    + [UpdateRow(l.outboxId, SettledRow(db.outbox[l.outboxId], state, nextAttemptAt, r))]
  }
}
