/**
 The application system: any number of workers, evaluators and operators, interleaved transaction by
 transaction, with a worker allowed to crash at any point and an arbitrary clock.
 */
module OutboxSystem {
  import opened Wrappers
  import opened Identity
  import opened OutboxTables
  import opened OutboxGuards
  import opened OutboxOperations
  import opened OutboxInvariant
  import opened Delivery
  import opened Backoff

  /** One attempt of one row; a lease is identified by it. */
  datatype Ticket = Ticket(outboxId: nat, attemptNumber: int)

  /** A worker's memory of one lease: sent or not, and if sent with which answer. */
  datatype Task =
    | Leased(lease: LeasedDelivery)
    | Answered(lease: LeasedDelivery, reply: Reply, startedAt: Time, completedAt: Time)

  /** One POST on the wire. `accepted` says that the receiver took the request in. */
  datatype Send = Send(outboxId: nat, idempotencyKey: string, payload: WebhookPayload, accepted: bool)

  datatype System = System(db: Db, tasks: map<Ticket, Task>, wire: seq<Send>)

  const Start := System(EmptyDb, map[], [])

  /**
   One atomic step. A batch lease is a run of LeaseRow steps (see OutboxBatch). Post takes place outside any
   transaction; Crash forgets a lease before its POST, after it, or before its outcome is recorded.
   */
  datatype Step =
    | Evaluate(id: nat, intent: Intent, maxAttempts: int)
    | ClaimLedger(id: nat, at: Time)
    | LeaseRow(id: nat, workerId: string, now: Time, leaseSeconds: Time)
    | Post(ticket: Ticket, reply: Reply, accepted: bool, startedAt: Time, completedAt: Time)
    | Record(ticket: Ticket, base: real)
    | Crash(ticket: Ticket)
    | Redrive(tenantId: string, id: nat, now: Time, additional: int)

  predicate CanEvaluate(db: Db, id: nat, i: Intent, maxAttempts: int) {
    && id !in db.outbox
    && i.evaluationId !in db.evaluations
    && i.evaluationId < 0x8000_0000_0000_0000
    && 1 <= |i.tenantId| <= 100
    && 1 <= |i.destinationHost| <= 253
    && i.transition in {FIRED, RESOLVED}
    && i.idempotencyKey == DeliveryIdempotencyKey(i.tenantId, i.evaluationId, i.transition)
    && 1 <= maxAttempts <= MAX_ATTEMPT_CEILING
  }

  predicate CanLease(db: Db, id: nat, workerId: string, now: Time, leaseSeconds: Time) {
    && id in db.outbox
    && Eligible(db.outbox[id], now)
    && 1 <= |workerId| <= 200
    && leaseSeconds > 0.0
  }

  predicate CanPost(s: System, t: Ticket, reply: Reply, accepted: bool) {
    && t in s.tasks && s.tasks[t].Leased?
    && ValidReply(reply)
    && (reply.Status? && 200 <= reply.code < 300 ==> accepted)
  }

  predicate CanRecord(s: System, t: Ticket) {
    && t in s.tasks && s.tasks[t].Answered?
    && ValidReply(s.tasks[t].reply)
    && s.tasks[t].lease.attemptNumber >= 1
  }

  function RecordTask(db: Db, task: Task, base: real): Result<Db, OutboxError>
    requires task.Answered? && ValidReply(task.reply) && task.lease.attemptNumber >= 1
  {
    RecordDecision(db, task.lease, Classify(task.reply), task.startedAt, task.completedAt, base)
  }

  /** A CLAIMED ledger row left by the earlier delivery path, under the intent's own identity. */
  function LedgerClaimed(db: Db, id: nat, at: Time): Db
    requires id in db.outbox
  {
    var i := db.outbox[id].intent;
    if KeyOf(i) in db.ledger then db
    else db.(ledger := db.ledger[KeyOf(i) :=
                 LedgerRow(i.fingerprint, i.transition, i.destinationHost, i.payloadHash, CLAIMED, 0, None, None, at, None)])
  }

  /** A step that is not enabled, or whose transaction raises, changes no table. */
  function Apply(s: System, step: Step): System {
    match step
    case Evaluate(id, intent, maxAttempts) =>
      if !CanEvaluate(s.db, id, intent, maxAttempts) then s
      else s.(db := Evaluated(s.db, id, intent, maxAttempts))
    case ClaimLedger(id, at) =>
      if id !in s.db.outbox then s else s.(db := LedgerClaimed(s.db, id, at))
    case LeaseRow(id, workerId, now, leaseSeconds) =>
      if !CanLease(s.db, id, workerId, now, leaseSeconds) then s
      else
        var leased := LeasedRow(s.db.outbox[id], workerId, now, leaseSeconds);
        s.(db := s.db.(outbox := s.db.outbox[id := leased]),
           tasks := s.tasks[Ticket(id, leased.attemptCount) := Leased(LeaseOf(id, leased))])
    case Post(t, reply, accepted, startedAt, completedAt) =>
      if !CanPost(s, t, reply, accepted) then s
      else
        var l := s.tasks[t].lease;
        s.(tasks := s.tasks[t := Answered(l, reply, startedAt, completedAt)],
           wire := s.wire + [Send(l.outboxId, l.intent.idempotencyKey, l.intent.payload, accepted)])
    case Record(t, base) =>
      if !CanRecord(s, t) then s
      else
        var done := RecordTask(s.db, s.tasks[t], base);
        System(if done.Ok? then done.value else s.db, s.tasks - {t}, s.wire)
    case Crash(t) =>
      s.(tasks := s.tasks - {t})
    case Redrive(tenantId, id, now, additional) =>
      var done := OutboxOperations.Redrive(s.db, tenantId, id, now, additional);
      if done.Ok? then s.(db := done.value) else s
  }

  /** The state after a run, given by the steps taken from the empty tables. */
  function After(run: seq<Step>): System {
    if run == [] then Start else Apply(After(run[..|run| - 1]), run[|run| - 1])
  }

  // ------------------------------------------------------------- invariant

  ghost predicate TaskInv(db: Db, t: Ticket, task: Task) {
    && task.lease.outboxId == t.outboxId
    && task.lease.attemptNumber == t.attemptNumber
    && Faithful(db, task.lease)
    && (task.Answered? ==> ValidReply(task.reply))
  }

  ghost predicate Inv(s: System) {
    && DbInv(s.db)
    && forall t | t in s.tasks :: TaskInv(s.db, t, s.tasks[t])
  }

  lemma TasksSurvive(s: System, db: Db)
    requires Inv(s) && Rely(s.db, db)
    ensures forall t | t in s.tasks :: TaskInv(db, t, s.tasks[t])
  {
    hide DbInv, Rely, Faithful;
    forall t | t in s.tasks
      ensures TaskInv(db, t, s.tasks[t])
    {
      assert TaskInv(s.db, t, s.tasks[t]);
      RelyKeepsFaithful(s.db, db, s.tasks[t].lease);
    }
  }

  lemma ClaimedRowIsOk(db: Db, id: nat, at: Time)
    requires id in db.outbox && RowOk(db, id)
    ensures RowOk(LedgerClaimed(db, id, at), id)
  {
  }

  lemma LedgerClaimKeepsInv(db: Db, id: nat, at: Time)
    requires DbInv(db) && id in db.outbox
    ensures DbInv(LedgerClaimed(db, id, at)) && Rely(db, LedgerClaimed(db, id, at))
  {
    assert RowOk(db, id);
    hide *;
    ClaimedRowIsOk(db, id, at);
    ClaimChangesOneRow(db, id, at);
    OneRowKeepsInv(db, LedgerClaimed(db, id, at), id);
  }

  lemma ClaimChangesOneRow(db: Db, id: nat, at: Time)
    requires id in db.outbox
    ensures OneRowChanged(db, LedgerClaimed(db, id, at), id) && Rely(db, LedgerClaimed(db, id, at))
  {
  }

  /** `_process` never breaks a precondition of a record call: its report is admissible. */
  lemma ProcessIsAdmissible(db: Db, l: LeasedDelivery, reply: Reply, startedAt: Time, completedAt: Time)
    requires DbInv(db) && Faithful(db, l) && Holds(db, l) && ValidReply(reply)
    ensures var d := Classify(reply);
            Admissible(l, NextState(l, d), ReportOf(d, startedAt, completedAt))
  {
    DecisionsAreWellFormed(reply);
    assert RowOk(db, l.outboxId);
  }

  /** For a faithful lease the outcome transaction either settles the row or finds the lease lost; nothing else. */
  lemma RecordSettlesOrLoses(db: Db, l: LeasedDelivery, reply: Reply, startedAt: Time, completedAt: Time, base: real)
    requires DbInv(db) && Faithful(db, l) && ValidReply(reply)
    ensures var d := Classify(reply);
            var r := ReportOf(d, startedAt, completedAt);
            var done := RecordDecision(db, l, d, startedAt, completedAt, base);
            if Holds(db, l) then
              && done == Ok(Settle(db, l, NextState(l, d), NextDue(db, l, d, completedAt, base), r))
              && DbInv(done.value) && Rely(db, done.value)
              && Transact(db, OutcomeWrites(db, l, NextState(l, d), NextDue(db, l, d, completedAt, base), r)) == Some(done.value)
            else done == Err(LeaseLost)
  {
    hide RowInv, DbInv, Rely;
    DecisionsAreWellFormed(reply);
    if Holds(db, l) {
      var d := Classify(reply);
      var r := ReportOf(d, startedAt, completedAt);
      ProcessIsAdmissible(db, l, reply, startedAt, completedAt);
      SettleKeepsInv(db, l, NextState(l, d), NextDue(db, l, d, completedAt, base), r);
      OutcomeIsAccepted(db, l, NextState(l, d), NextDue(db, l, d, completedAt, base), r);
    }
  }

  function NextDue(db: Db, l: LeasedDelivery, d: Decision, completedAt: Time, base: real): Time
    requires l.outboxId in db.outbox && l.attemptNumber >= 1
  {
    if NextState(l, d) == PENDING then completedAt + Delay(l.attemptNumber, base, DEFAULT_CAP)
    else db.outbox[l.outboxId].nextAttemptAt
  }

  /** The SQL writes a step issues; none when it is not enabled or raises before its first write. */
  function WritesOf(s: System, step: Step): seq<Write> {
    match step
    case Evaluate(id, intent, maxAttempts) =>
      if CanEvaluate(s.db, id, intent, maxAttempts) then EvaluationWrites(id, intent, maxAttempts) else []
    case ClaimLedger(id, at) =>
      if id !in s.db.outbox then []
      else
        var i := s.db.outbox[id].intent;
        [InsertLedger(KeyOf(i),
                      LedgerRow(i.fingerprint, i.transition, i.destinationHost, i.payloadHash, CLAIMED, 0, None, None, at, None))]
    case LeaseRow(id, workerId, now, leaseSeconds) =>
      if CanLease(s.db, id, workerId, now, leaseSeconds)
      then [UpdateRow(id, LeasedRow(s.db.outbox[id], workerId, now, leaseSeconds))] else []
    case Record(t, base) =>
      if CanRecord(s, t) && Holds(s.db, s.tasks[t].lease) then
        var task := s.tasks[t];
        var d := Classify(task.reply);
        OutcomeWrites(s.db, task.lease, NextState(task.lease, d), NextDue(s.db, task.lease, d, task.completedAt, base),
                      ReportOf(d, task.startedAt, task.completedAt))
      else []
    case Redrive(tenantId, id, now, additional) =>
      if OutboxOperations.Redrive(s.db, tenantId, id, now, additional).Ok?
      then [UpdateRow(id, RedrivenRow(s.db.outbox[id], NewCeiling(s.db.outbox[id], additional), now))] else []
    case _ => []
  }

  lemma StepIsSound(s: System, step: Step)
    requires Inv(s)
    ensures DbInv(Apply(s, step).db)
    ensures Rely(s.db, Apply(s, step).db)
    ensures Transact(s.db, WritesOf(s, step)) == Some(Apply(s, step).db)
  {
    hide RowInv, Rely, DbInv;
    RelyIsReflexive(s.db);
    match step
    case Evaluate(id, intent, maxAttempts) =>
      if CanEvaluate(s.db, id, intent, maxAttempts) {
        EvaluatedKeepsInv(s.db, id, intent, maxAttempts);
        EvaluationIsAccepted(s.db, id, intent, maxAttempts);
      }
    case ClaimLedger(id, at) =>
      if id in s.db.outbox {
        LedgerClaimKeepsInv(s.db, id, at);
        ClaimIsAccepted(s.db, id, at);
        TransactOne(s.db, WritesOf(s, step)[0]);
      }
    case LeaseRow(id, workerId, now, leaseSeconds) =>
      if CanLease(s.db, id, workerId, now, leaseSeconds) {
        LeaseIsAccepted(s.db, id, workerId, now, leaseSeconds);
        TransactOne(s.db, WritesOf(s, step)[0]);
      }
    case Post(_, _, _, _, _) =>
    case Record(t, base) =>
      if CanRecord(s, t) {
        var task := s.tasks[t];
        assert TaskInv(s.db, t, task);
        RecordSettlesOrLoses(s.db, task.lease, task.reply, task.startedAt, task.completedAt, base);
      }
    case Crash(_) =>
    case Redrive(tenantId, id, now, additional) =>
      if OutboxOperations.Redrive(s.db, tenantId, id, now, additional).Ok? {
        RedriveIsAccepted(s.db, tenantId, id, now, additional);
        TransactOne(s.db, WritesOf(s, step)[0]);
      }
  }

  lemma ClaimIsAccepted(db: Db, id: nat, at: Time)
    requires DbInv(db) && id in db.outbox
    ensures var i := db.outbox[id].intent;
            var w := InsertLedger(KeyOf(i), LedgerRow(i.fingerprint, i.transition, i.destinationHost, i.payloadHash,
                                                      CLAIMED, 0, None, None, at, None));
            Accepts(db, w) && Commit(db, w) == LedgerClaimed(db, id, at)
  {
    assert RowOk(db, id);
  }

  lemma StepKeepsInv(s: System, step: Step)
    requires Inv(s)
    ensures Inv(Apply(s, step))
  {
    hide RowInv, Rely, DbInv, Faithful;
    StepIsSound(s, step);
    TasksSurvive(s, Apply(s, step).db);
    match step
    case LeaseRow(id, workerId, now, leaseSeconds) =>
      if CanLease(s.db, id, workerId, now, leaseSeconds) {
        LeaseIsAccepted(s.db, id, workerId, now, leaseSeconds);
      }
    case Post(t, _, _, _, _) =>
      assert t in s.tasks ==> TaskInv(s.db, t, s.tasks[t]);
    case _ =>
  }

  lemma {:induction false} RunKeepsInv(run: seq<Step>)
    ensures Inv(After(run))
  {
    if run != [] {
      RunKeepsInv(run[..|run| - 1]);
      StepKeepsInv(After(run[..|run| - 1]), run[|run| - 1]);
    }
  }

  /** All the writes of a run, in the order they are issued. */
  function RunWrites(run: seq<Step>): seq<Write> {
    if run == [] then []
    else RunWrites(run[..|run| - 1]) + WritesOf(After(run[..|run| - 1]), run[|run| - 1])
  }

  /**
   Refinement: in every run, with any interleaving, takeovers, crashes and re-drives, every write that a
   transaction issues passes all triggers and CHECKs, and the guard layer replaying them reaches the same tables.
   */
  lemma {:induction false} ApplicationRefinesGuards(run: seq<Step>)
    ensures Transact(EmptyDb, RunWrites(run)) == Some(After(run).db)
    ensures Replay(EmptyDb, RunWrites(run)) == After(run).db
  {
    if run != [] {
      var before := run[..|run| - 1];
      ApplicationRefinesGuards(before);
      RunKeepsInv(before);
      StepIsSound(After(before), run[|run| - 1]);
      TransactAppend(EmptyDb, RunWrites(before), WritesOf(After(before), run[|run| - 1]));
      TransactIsReplay(EmptyDb, RunWrites(run));
    }
  }
}
