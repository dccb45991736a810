/**
 The tables behind durable alert delivery: evaluations, the outbox, its append-only attempt
 evidence and the terminal ledger, each with the CHECK constraints of migrations 0007 and 0008.
 */
module OutboxTables {
  import opened Wrappers
  import opened Identity

  const MAX_ATTEMPT_CEILING := 100

  datatype OutboxState = PENDING | IN_FLIGHT | DELIVERED | DEAD_LETTER

  datatype AttemptOutcome = ATTEMPT_DELIVERED | RETRYABLE_FAILURE | PERMANENT_FAILURE | AMBIGUOUS

  datatype LedgerStatus = CLAIMED | LEDGER_DELIVERED | LEDGER_FAILED

  datatype Evaluation = Evaluation(tenantId: string, fingerprint: Hash, transition: Transition)

  /** What a receiver is told of an evaluation; its own payload hash and idempotency key are those of the evaluation. */
  datatype WebhookPayload = WebhookPayload(
    evaluationId: nat,
    fingerprint: Hash,
    policyId: string,
    policyVersion: string,
    tenantId: string,
    runId: Option<string>,
    caseId: Option<string>,
    transition: Transition,
    state: Option<AlertState>,
    previousState: Option<AlertState>,
    assessment: Assessment,
    payloadHash: Hash,
    idempotencyKey: string,
    evaluatedAt: Time)

  /** The digest of a webhook payload, injective. */
  datatype PayloadHash = PayloadHash(payload: WebhookPayload)

  /** The identity and payload columns of an outbox row, immutable after the insert. */
  datatype Intent = Intent(
    tenantId: string,
    evaluationId: nat,
    fingerprint: Hash,
    transition: Transition,
    destinationHost: string,
    payload: WebhookPayload,
    payloadHash: PayloadHash,
    idempotencyKey: string,
    enqueuedAt: Time)

  datatype OutboxRow = OutboxRow(
    intent: Intent,
    state: OutboxState,
    attemptCount: int,
    maxAttempts: int,
    redriveCount: int,
    nextAttemptAt: Time,
    leaseOwner: Option<string>,
    leaseExpiresAt: Option<Time>,
    lastErrorClass: Option<string>,
    lastHttpStatus: Option<int>,
    updatedAt: Time,
    completedAt: Option<Time>)

  datatype AttemptEvent = AttemptEvent(
    tenantId: string,
    evaluationId: nat,
    outcome: AttemptOutcome,
    httpStatus: Option<int>,
    errorClass: Option<string>,
    leaseOwner: string,
    idempotencyKey: string,
    startedAt: Time,
    completedAt: Time)

  datatype LedgerKey = LedgerKey(tenantId: string, evaluationId: nat)

  datatype LedgerRow = LedgerRow(
    fingerprint: Hash,
    transition: Transition,
    destinationHost: string,
    payloadHash: PayloadHash,
    status: LedgerStatus,
    attemptCount: int,
    httpStatus: Option<int>,
    errorClass: Option<string>,
    claimedAt: Time,
    completedAt: Option<Time>)

  /** `events[id][n]` is the evidence of attempt `n`, so UNIQUE (outbox_id, attempt_number) is built in;
      the ledger is keyed by its UNIQUE (tenant_id, evaluation_id). */
  datatype Db = Db(
    evaluations: map<nat, Evaluation>,
    outbox: map<nat, OutboxRow>,
    events: map<nat, map<int, AttemptEvent>>,
    ledger: map<LedgerKey, LedgerRow>)

  const EmptyDb := Db(map[], map[], map[], map[])

  function EventsOf(db: Db, id: nat): map<int, AttemptEvent> {
    if id in db.events then db.events[id] else map[]
  }

  function EventAt(db: Db, id: nat, n: int): Option<AttemptEvent> {
    if n in EventsOf(db, id) then Some(EventsOf(db, id)[n]) else None
  }

  function KeyOf(i: Intent): LedgerKey {
    LedgerKey(i.tenantId, i.evaluationId)
  }

  function LedgerAt(db: Db, key: LedgerKey): Option<LedgerRow> {
    if key in db.ledger then Some(db.ledger[key]) else None
  }

  predicate Terminal(s: OutboxState) {
    s == DELIVERED || s == DEAD_LETTER
  }

  predicate Success(httpStatus: Option<int>) {
    httpStatus.Some? && 200 <= httpStatus.value < 300
  }

  /** `btrim(text) <> ''`: some character is not a space. */
  predicate NotBlank(text: string) {
    exists i | 0 <= i < |text| :: text[i] != ' '
  }

  predicate StatusCheck(httpStatus: Option<int>) {
    httpStatus.Some? ==> 100 <= httpStatus.value <= 599
  }

  predicate TextCheck(text: Option<string>, limit: nat) {
    text.Some? ==> 1 <= |text.value| <= limit
  }

  predicate RowChecks(r: OutboxRow) {
    && |r.intent.tenantId| > 0
    && r.intent.transition in {FIRED, RESOLVED}
    && 1 <= |r.intent.destinationHost| <= 253
    && 1 <= |r.intent.idempotencyKey| <= 500
    && 0 <= r.attemptCount <= 100
    && 1 <= r.maxAttempts <= 100
    && 0 <= r.redriveCount <= 100
    && TextCheck(r.leaseOwner, 200)
    && TextCheck(r.lastErrorClass, 100)
    && StatusCheck(r.lastHttpStatus)
    && (r.state == IN_FLIGHT <==> r.leaseOwner.Some?)
    && (r.state == IN_FLIGHT <==> r.leaseExpiresAt.Some?)
    && (Terminal(r.state) <==> r.completedAt.Some?)
    && (r.state == DELIVERED ==> r.attemptCount >= 1 && Success(r.lastHttpStatus) && r.lastErrorClass.None?)
    && (r.state == DEAD_LETTER ==>
          r.attemptCount >= 1 && r.lastErrorClass.Some? && NotBlank(r.lastErrorClass.value))
  }

  /** The outcome CHECK of the attempt evidence. */
  predicate EvidenceCheck(outcome: AttemptOutcome, httpStatus: Option<int>, errorClass: Option<string>) {
    match outcome
    case ATTEMPT_DELIVERED => Success(httpStatus) && errorClass.None?
    case AMBIGUOUS => httpStatus.None? && errorClass.Some?
    case _ => errorClass.Some? && !Success(httpStatus)
  }

  predicate EventChecks(n: int, e: AttemptEvent) {
    && |e.tenantId| > 0
    && 1 <= n <= 100
    && StatusCheck(e.httpStatus)
    && TextCheck(e.errorClass, 100)
    && 1 <= |e.leaseOwner| <= 200
    && 1 <= |e.idempotencyKey| <= 500
    && EvidenceCheck(e.outcome, e.httpStatus, e.errorClass)
  }

  predicate LedgerChecks(key: LedgerKey, l: LedgerRow) {
    && |key.tenantId| > 0
    && l.transition in {FIRED, RESOLVED}
    && 1 <= |l.destinationHost| <= 253
    && 0 <= l.attemptCount <= 100
    && StatusCheck(l.httpStatus)
    && TextCheck(l.errorClass, 100)
    && (l.status != CLAIMED ==> l.attemptCount >= 1 && l.completedAt.Some?)
    && (l.status == LEDGER_DELIVERED ==> Success(l.httpStatus) && l.errorClass.None?)
    && (l.status == LEDGER_FAILED ==>
          l.errorClass.Some? && NotBlank(l.errorClass.value) && !Success(l.httpStatus))
  }
}
