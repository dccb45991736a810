/** How a worker classifies the answer to one POST, and what it then reports. */
module Delivery {
  import opened Wrappers
  import opened Identity
  import opened OutboxTables
  import opened OutboxOperations

  /** The transport's answer: a status line, or one of the exceptions it can raise. */
  datatype Reply = Status(code: nat) | TimeoutError | ConnectError | OtherError

  datatype Decision = Decision(
    outcome: AttemptOutcome,
    httpStatus: Option<int>,
    errorClass: Option<string>,
    retryable: bool)

  const AMBIGUOUS_ERROR_CLASSES := {"timeout"}
  const RETRYABLE_ERROR_CLASSES := {"timeout", "connection_error", "transport_error"}

  function ClassifyResponse(code: int): Decision
    requires 100 <= code <= 599
  {
    if 200 <= code < 300 then Decision(ATTEMPT_DELIVERED, Some(code), None, false)
    else if code >= 500 then Decision(RETRYABLE_FAILURE, Some(code), Some("http_" + Digits(code)), true)
    else Decision(PERMANENT_FAILURE, Some(code), Some("http_" + Digits(code)), false)
  }

  function ClassifyTransportError(r: Reply): string
    requires !r.Status?
  {
    match r
    case TimeoutError => "timeout"
    case ConnectError => "connection_error"
    case OtherError => "transport_error"
  }

  function ClassifyException(r: Reply): Decision
    requires !r.Status?
  {
    var errorClass := ClassifyTransportError(r);
    if errorClass in AMBIGUOUS_ERROR_CLASSES then Decision(AMBIGUOUS, None, Some(errorClass), true)
    else if errorClass in RETRYABLE_ERROR_CLASSES then Decision(RETRYABLE_FAILURE, None, Some(errorClass), true)
    else Decision(PERMANENT_FAILURE, None, Some(errorClass), false)
  }

  predicate ValidReply(r: Reply) {
    r.Status? ==> 100 <= r.code <= 599
  }

  function Classify(r: Reply): Decision
    requires ValidReply(r)
  {
    if r.Status? then ClassifyResponse(r.code) else ClassifyException(r)
  }

  /** Which record_* call `_process` makes. */
  function NextState(l: LeasedDelivery, d: Decision): OutboxState {
    if d.outcome == ATTEMPT_DELIVERED then DELIVERED
    else if d.retryable && !l.IsFinalAttempt() then PENDING
    else DEAD_LETTER
  }

  function ReportOf(d: Decision, startedAt: Time, completedAt: Time): Report {
    Report(d.outcome, d.httpStatus,
           if d.outcome == ATTEMPT_DELIVERED then None
           else if d.errorClass.Some? && d.errorClass.value != "" then d.errorClass
           else Some("unknown_error"),
           startedAt, completedAt)
  }

  /** The outcome transaction of `_process`. */
  function RecordDecision(db: Db, l: LeasedDelivery, d: Decision, startedAt: Time, completedAt: Time, base: real)
    : Result<Db, OutboxError>
    requires l.attemptNumber >= 1
  {
    var r := ReportOf(d, startedAt, completedAt);
    match NextState(l, d)
    case DELIVERED => RecordDelivered(db, l, if d.httpStatus.Some? then d.httpStatus.value else 0, startedAt, completedAt)
    case PENDING => RecordRetry(db, l, r, base)
    case _ => RecordDeadLetter(db, l, r)
  }

  /** Every decision carries evidence that the CHECKs accept, and retries exactly what may be retried. */
  lemma DecisionsAreWellFormed(r: Reply)
    requires ValidReply(r)
    ensures var d := Classify(r);
            && EvidenceCheck(d.outcome, d.httpStatus, d.errorClass)
            && StatusCheck(d.httpStatus)
            && TextCheck(d.errorClass, 100)
            && (d.errorClass.Some? ==> NotBlank(d.errorClass.value))
            && (d.retryable <==> d.outcome in {RETRYABLE_FAILURE, AMBIGUOUS})
            && (d.outcome == ATTEMPT_DELIVERED <==> r.Status? && 200 <= r.code < 300)
            && (d.outcome == AMBIGUOUS <==> r == TimeoutError)
            && (d.outcome == PERMANENT_FAILURE <==> r.Status? && (r.code < 200 || 300 <= r.code < 500))
  {
    var d := Classify(r);
    if d.errorClass.Some? {
      assert d.errorClass.value[0] != ' ';
      if r.Status? {
        assert Pow10(3) == 1000;
        DigitsLength(r.code, 3);
      }
    }
  }

  // ------------------------------------------------------------ by the book

  /** What an answer is worth: any 2xx is delivery, 5xx and transport errors may be retried, all else is final. */
  function Worth(r: Reply): AttemptOutcome {
    match r
    case Status(code) =>
      if 200 <= code <= 299 then ATTEMPT_DELIVERED else if code >= 500 then RETRYABLE_FAILURE else PERMANENT_FAILURE
    case TimeoutError => AMBIGUOUS
    case _ => RETRYABLE_FAILURE
  }

  /** The evidence of an answer: its status, or the class of the error. */
  function EvidenceOf(r: Reply, startedAt: Time, completedAt: Time): Report {
    match r
    case Status(code) =>
      Report(Worth(r), Some(code), if 200 <= code <= 299 then None else Some("http_" + Digits(code)), startedAt, completedAt)
    case TimeoutError => Report(AMBIGUOUS, None, Some("timeout"), startedAt, completedAt)
    case ConnectError => Report(RETRYABLE_FAILURE, None, Some("connection_error"), startedAt, completedAt)
    case OtherError => Report(RETRYABLE_FAILURE, None, Some("transport_error"), startedAt, completedAt)
  }

  /** Where an answer to attempt `n` of at most `budget` takes the row. */
  function Verdict(r: Reply, n: int, budget: int): OutboxState {
    match Worth(r)
    case ATTEMPT_DELIVERED => DELIVERED
    case PERMANENT_FAILURE => DEAD_LETTER
    case _ => if n < budget then PENDING else DEAD_LETTER
  }

  lemma DecisionIsByTheBook(l: LeasedDelivery, r: Reply, startedAt: Time, completedAt: Time)
    requires ValidReply(r)
    ensures ReportOf(Classify(r), startedAt, completedAt) == EvidenceOf(r, startedAt, completedAt)
    ensures EvidenceOf(r, startedAt, completedAt).completedAt == completedAt
    ensures NextState(l, Classify(r)) == Verdict(r, l.attemptNumber, l.maxAttempts)
    ensures Classify(r).outcome == Worth(r) && (Classify(r).retryable <==> Worth(r) in {RETRYABLE_FAILURE, AMBIGUOUS})
  {
    if r.Status? {
      assert ("http_" + Digits(r.code))[0] == 'h';
    }
  }
}
