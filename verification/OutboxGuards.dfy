/**
 The guard layer: every write that the triggers and CHECKs of migrations 0007 and 0008 accept,
 whoever issues it, and what holds after any sequence of such writes.
 */
module OutboxGuards {
  import opened Wrappers
  import opened OutboxTables

  /** One INSERT or UPDATE statement on one row. Deletes are refused by triggers. */
  datatype Write =
    | AppendEvaluation(evaluationId: nat, evaluation: Evaluation)
    | InsertRow(id: nat, row: OutboxRow)
    | UpdateRow(id: nat, row: OutboxRow)
    | InsertEvent(id: nat, number: int, event: AttemptEvent)
    | InsertLedger(key: LedgerKey, entry: LedgerRow)
    | UpdateLedger(key: LedgerKey, entry: LedgerRow)

  /** guard_alert_outbox_insert. */
  predicate GuardRowInsert(db: Db, row: OutboxRow) {
    && row.state == PENDING && row.attemptCount == 0 && row.redriveCount == 0
    && row.leaseOwner.None? && row.leaseExpiresAt.None?
    && row.lastErrorClass.None? && row.lastHttpStatus.None? && row.completedAt.None?
    && row.intent.evaluationId in db.evaluations
    && var e := db.evaluations[row.intent.evaluationId];
       e == Evaluation(row.intent.tenantId, row.intent.fingerprint, row.intent.transition)
  }

  /** The evidence an IN_FLIGHT row must show when it leaves that state. */
  predicate GuardOutcome(was: OutboxRow, next: OutboxRow, event: Option<AttemptEvent>, ledger: Option<LedgerRow>) {
    && next.attemptCount == was.attemptCount
    && event.Some?
    && Some(event.value.leaseOwner) == was.leaseOwner
    && event.value.httpStatus == next.lastHttpStatus
    && event.value.errorClass == next.lastErrorClass
    && event.value.completedAt == next.updatedAt
    && (next.state == DELIVERED ==> event.value.outcome == ATTEMPT_DELIVERED)
    && (next.state == PENDING ==>
          event.value.outcome in {RETRYABLE_FAILURE, AMBIGUOUS} && next.attemptCount < next.maxAttempts)
    && (next.state == DEAD_LETTER ==>
          event.value.outcome in {RETRYABLE_FAILURE, PERMANENT_FAILURE, AMBIGUOUS})
    && (next.state == DEAD_LETTER && event.value.outcome in {RETRYABLE_FAILURE, AMBIGUOUS} ==>
          next.attemptCount >= next.maxAttempts)
    && (Terminal(next.state) ==> GuardTerminal(was, next, ledger))
  }

  predicate SameIdentity(l: LedgerRow, i: Intent) {
    && l.fingerprint == i.fingerprint
    && l.transition == i.transition
    && l.destinationHost == i.destinationHost
    && l.payloadHash == i.payloadHash
  }

  predicate GuardTerminal(was: OutboxRow, next: OutboxRow, ledger: Option<LedgerRow>) {
    && ledger.Some?
    && SameIdentity(ledger.value, was.intent)
    && (was.redriveCount == 0 ==>
          && ledger.value.status == (if next.state == DELIVERED then LEDGER_DELIVERED else LEDGER_FAILED)
          && ledger.value.attemptCount == next.attemptCount
          && ledger.value.httpStatus == next.lastHttpStatus
          && ledger.value.errorClass == next.lastErrorClass
          && ledger.value.completedAt == next.completedAt)
    && (was.redriveCount > 0 ==> ledger.value.status == LEDGER_FAILED)
  }

  /** guard_alert_outbox_update. A NULL lease expiry makes its comparison pass; the CHECK then refuses it. */
  predicate GuardRowUpdate(was: OutboxRow, next: OutboxRow, event: Option<AttemptEvent>, ledger: Option<LedgerRow>) {
    && next.intent == was.intent
    && was.state != DELIVERED
    && (|| (was.state == PENDING && next.state == IN_FLIGHT)
        || was.state == IN_FLIGHT
        || (was.state == DEAD_LETTER && next.state == PENDING))
    && next.attemptCount >= was.attemptCount
    && next.redriveCount >= was.redriveCount
    && (was.state == PENDING && next.state == IN_FLIGHT ==>
          && next.attemptCount == was.attemptCount + 1
          && was.nextAttemptAt <= next.updatedAt
          && (next.leaseExpiresAt.Some? ==> next.leaseExpiresAt.value > next.updatedAt))
    && (was.state == IN_FLIGHT && next.state == IN_FLIGHT ==>
          && next.attemptCount == was.attemptCount + 1
          && (was.leaseExpiresAt.Some? ==> was.leaseExpiresAt.value <= next.updatedAt)
          && (next.leaseExpiresAt.Some? ==> next.leaseExpiresAt.value > next.updatedAt))
    && (was.state == IN_FLIGHT && next.state != IN_FLIGHT ==> GuardOutcome(was, next, event, ledger))
    && (next.maxAttempts != was.maxAttempts ==> was.state == DEAD_LETTER && next.state == PENDING)
    && (was.state == DEAD_LETTER && next.state == PENDING ==> next.redriveCount == was.redriveCount + 1)
  }

  /** guard_alert_delivery_attempt_event_insert. */
  predicate GuardEventInsert(db: Db, id: nat, n: int, e: AttemptEvent) {
    && id in db.outbox
    && var row := db.outbox[id];
       && e.tenantId == row.intent.tenantId
       && e.evaluationId == row.intent.evaluationId
       && e.idempotencyKey == row.intent.idempotencyKey
       && row.state == IN_FLIGHT
       && n == row.attemptCount
       && Some(e.leaseOwner) == row.leaseOwner
  }

  /** guard_alert_delivery_attempt_insert. */
  predicate GuardLedgerInsert(db: Db, key: LedgerKey, l: LedgerRow) {
    && l.status == CLAIMED && l.attemptCount == 0
    && l.httpStatus.None? && l.errorClass.None? && l.completedAt.None?
    && key.evaluationId in db.evaluations
    && db.evaluations[key.evaluationId] == Evaluation(key.tenantId, l.fingerprint, l.transition)
  }

  /** guard_alert_delivery_attempt_update. */
  predicate GuardLedgerUpdate(was: LedgerRow, next: LedgerRow) {
    && was.status == CLAIMED
    && next.status != CLAIMED
    && next.fingerprint == was.fingerprint
    && next.transition == was.transition
    && next.destinationHost == was.destinationHost
    && next.payloadHash == was.payloadHash
    && next.claimedAt == was.claimedAt
  }

  predicate IntentExists(db: Db, key: LedgerKey) {
    exists id | id in db.outbox :: KeyOf(db.outbox[id].intent) == key
  }

  predicate KeyTaken(db: Db, i: Intent) {
    exists id | id in db.outbox ::
      db.outbox[id].intent.tenantId == i.tenantId && db.outbox[id].intent.idempotencyKey == i.idempotencyKey
  }

  /** Row triggers and CHECKs run before ON CONFLICT is considered, so a conflicting insert must pass them too. */
  predicate Accepts(db: Db, w: Write) {
    match w
    case AppendEvaluation(e, v) =>
      e !in db.evaluations && |v.tenantId| > 0
    case InsertRow(id, row) =>
      && id !in db.outbox && id !in db.events
      && GuardRowInsert(db, row)
      && RowChecks(row)
      && (IntentExists(db, KeyOf(row.intent)) || !KeyTaken(db, row.intent))
    case UpdateRow(id, row) =>
      && id in db.outbox
      && RowChecks(row)
      && var was := db.outbox[id];
         GuardRowUpdate(was, row, EventAt(db, id, was.attemptCount), LedgerAt(db, KeyOf(was.intent)))
    case InsertEvent(id, n, e) =>
      GuardEventInsert(db, id, n, e) && EventChecks(n, e)
    case InsertLedger(key, l) =>
      GuardLedgerInsert(db, key, l) && LedgerChecks(key, l)
    case UpdateLedger(key, l) =>
      key in db.ledger && GuardLedgerUpdate(db.ledger[key], l) && LedgerChecks(key, l)
  }

  /** The effect of an accepted write; a conflicting insert does nothing (ON CONFLICT DO NOTHING). */
  function Commit(db: Db, w: Write): Db {
    match w
    case AppendEvaluation(e, v) =>
      db.(evaluations := db.evaluations[e := v])
    case InsertRow(id, row) =>
      if IntentExists(db, KeyOf(row.intent)) then db
      else db.(outbox := db.outbox[id := row], events := db.events[id := map[]])
    case UpdateRow(id, row) =>
      db.(outbox := db.outbox[id := row])
    case InsertEvent(id, n, e) =>
      if n in EventsOf(db, id) then db else db.(events := db.events[id := EventsOf(db, id)[n := e]])
    case InsertLedger(key, l) =>
      if key in db.ledger then db else db.(ledger := db.ledger[key := l])
    case UpdateLedger(key, l) =>
      db.(ledger := db.ledger[key := l])
  }

  /** A refused write raises and changes nothing. */
  function Submit(db: Db, w: Write): Db {
    if Accepts(db, w) then Commit(db, w) else db
  }

  function Replay(db: Db, ws: seq<Write>): Db
    decreases |ws|
  {
    if ws == [] then db else Replay(Submit(db, ws[0]), ws[1..])
  }

  /** A transaction of writes: all of them accepted in turn, or none of them. */
  function Transact(db: Db, ws: seq<Write>): Option<Db>
    decreases |ws|
  {
    if ws == [] then Some(db)
    else if Accepts(db, ws[0]) then Transact(Commit(db, ws[0]), ws[1..])
    else None
  }

  lemma {:induction false} TransactIsReplay(db: Db, ws: seq<Write>)
    requires Transact(db, ws).Some?
    ensures Replay(db, ws) == Transact(db, ws).value
    decreases |ws|
  {
    if ws != [] {
      TransactIsReplay(Commit(db, ws[0]), ws[1..]);
    }
  }

  /** A terminal row shows the evidence of its last attempt and a ledger entry of the same identity. */
  ghost predicate TerminalEvidence(db: Db, id: nat)
    requires id in db.outbox
  {
    var row := db.outbox[id];
    var event := EventAt(db, id, row.attemptCount);
    var ledger := LedgerAt(db, KeyOf(row.intent));
    && event.Some?
    && (row.state == DELIVERED <==> event.value.outcome == ATTEMPT_DELIVERED)
    && event.value.httpStatus == row.lastHttpStatus
    && event.value.errorClass == row.lastErrorClass
    && event.value.completedAt == row.updatedAt
    && ledger.Some? && ledger.value.status != CLAIMED
    && SameIdentity(ledger.value, row.intent)
    && (|| ledger.value.status == LEDGER_FAILED
        || (&& row.state == DELIVERED
            && ledger.value.attemptCount == row.attemptCount
            && ledger.value.httpStatus == row.lastHttpStatus
            && ledger.value.completedAt == row.completedAt))
  }

  ghost predicate GuardInv(db: Db) {
    && (forall id | id in db.outbox :: RowChecks(db.outbox[id]))
    && (forall id | id in db.outbox && Terminal(db.outbox[id].state) :: TerminalEvidence(db, id))
  }

  /** What no accepted write can undo. */
  ghost predicate Evolves(a: Db, b: Db) {
    && (forall id | id in a.outbox ::
          && id in b.outbox
          && RowEvolves(a.outbox[id], b.outbox[id]))
    && (forall id, n | n in EventsOf(a, id) :: n in EventsOf(b, id) && EventsOf(b, id)[n] == EventsOf(a, id)[n])
    && (forall key | key in a.ledger ::
          && key in b.ledger
          && (a.ledger[key].status != CLAIMED ==> b.ledger[key] == a.ledger[key]))
    && (forall e | e in a.evaluations :: e in b.evaluations && b.evaluations[e] == a.evaluations[e])
  }

  ghost predicate RowEvolves(a: OutboxRow, b: OutboxRow) {
    && b.intent == a.intent
    && b.attemptCount >= a.attemptCount
    && b.redriveCount >= a.redriveCount
    && (a.state == DELIVERED ==> b == a)
  }

  lemma RowWriteKeepsEvidence(db: Db, id: nat, row: OutboxRow)
    requires GuardInv(db) && Accepts(db, UpdateRow(id, row))
    ensures GuardInv(Commit(db, UpdateRow(id, row)))
  {
    var after := Commit(db, UpdateRow(id, row));
    forall i | i in after.outbox && Terminal(after.outbox[i].state)
      ensures TerminalEvidence(after, i)
    {
      if i == id {
        var was := db.outbox[id];
        assert GuardOutcome(was, row, EventAt(db, id, was.attemptCount), LedgerAt(db, KeyOf(was.intent)));
      } else {
        assert TerminalEvidence(db, i);
      }
    }
  }

  lemma RowInsertKeepsEvidence(db: Db, id: nat, row: OutboxRow)
    requires GuardInv(db) && Accepts(db, InsertRow(id, row))
    ensures GuardInv(Commit(db, InsertRow(id, row)))
  {
    var after := Commit(db, InsertRow(id, row));
    forall i | i in after.outbox && Terminal(after.outbox[i].state)
      ensures TerminalEvidence(after, i)
    {
      assert TerminalEvidence(db, i);
    }
  }

  lemma EventInsertKeepsEvidence(db: Db, id: nat, n: int, e: AttemptEvent)
    requires GuardInv(db) && Accepts(db, InsertEvent(id, n, e))
    ensures GuardInv(Commit(db, InsertEvent(id, n, e)))
  {
    var after := Commit(db, InsertEvent(id, n, e));
    forall i | i in after.outbox && Terminal(after.outbox[i].state)
      ensures TerminalEvidence(after, i)
    {
      assert TerminalEvidence(db, i);
    }
  }

  lemma LedgerWriteKeepsEvidence(db: Db, key: LedgerKey, l: LedgerRow)
    requires GuardInv(db)
    requires key in db.ledger ==> db.ledger[key].status == CLAIMED
    ensures GuardInv(db.(ledger := db.ledger[key := l]))
  {
    var after := db.(ledger := db.ledger[key := l]);
    forall i | i in after.outbox && Terminal(after.outbox[i].state)
      ensures TerminalEvidence(after, i)
    {
      assert TerminalEvidence(db, i);
    }
  }

  lemma CommitKeepsGuards(db: Db, w: Write)
    requires GuardInv(db) && Accepts(db, w)
    ensures GuardInv(Commit(db, w))
  {
    match w
    case AppendEvaluation(e, v) =>
      var after := Commit(db, w);
      forall i | i in after.outbox && Terminal(after.outbox[i].state)
        ensures TerminalEvidence(after, i)
      {
        assert TerminalEvidence(db, i);
      }
    case InsertRow(id, row) => RowInsertKeepsEvidence(db, id, row);
    case UpdateRow(id, row) => RowWriteKeepsEvidence(db, id, row);
    case InsertEvent(id, n, e) => EventInsertKeepsEvidence(db, id, n, e);
    case InsertLedger(key, l) =>
      if key !in db.ledger {
        LedgerWriteKeepsEvidence(db, key, l);
      }
    case UpdateLedger(key, l) => LedgerWriteKeepsEvidence(db, key, l);
  }

  lemma CommitEvolves(db: Db, w: Write)
    requires Accepts(db, w)
    ensures Evolves(db, Commit(db, w))
  {
    match w
    case AppendEvaluation(e, v) =>
    case InsertRow(id, row) => RowInsertEvolves(db, id, row);
    case UpdateRow(id, row) => RowWriteEvolves(db, id, row);
    case InsertEvent(id, n, e) => EventInsertEvolves(db, id, n, e);
    case InsertLedger(key, l) => LedgerInsertEvolves(db, key, l);
    case UpdateLedger(key, l) => LedgerUpdateEvolves(db, key, l);
  }

  lemma RowInsertEvolves(db: Db, id: nat, row: OutboxRow)
    requires id !in db.outbox && id !in db.events
    ensures Evolves(db, Commit(db, InsertRow(id, row)))
  {
  }

  lemma LedgerInsertEvolves(db: Db, key: LedgerKey, l: LedgerRow)
    ensures Evolves(db, Commit(db, InsertLedger(key, l)))
  {
  }

  lemma LedgerUpdateEvolves(db: Db, key: LedgerKey, l: LedgerRow)
    requires key in db.ledger ==> db.ledger[key].status == CLAIMED
    ensures Evolves(db, Commit(db, UpdateLedger(key, l)))
  {
  }

  lemma EventInsertEvolves(db: Db, id: nat, n: int, e: AttemptEvent)
    ensures Evolves(db, Commit(db, InsertEvent(id, n, e)))
  {
  }

  lemma RowWriteEvolves(db: Db, id: nat, row: OutboxRow)
    requires Accepts(db, UpdateRow(id, row))
    ensures Evolves(db, Commit(db, UpdateRow(id, row)))
  {
    assert RowEvolves(db.outbox[id], row);
  }

  lemma SubmitKeepsGuards(db: Db, w: Write)
    requires GuardInv(db)
    ensures GuardInv(Submit(db, w))
    ensures Evolves(db, Submit(db, w))
  {
    if Accepts(db, w) {
      CommitKeepsGuards(db, w);
      CommitEvolves(db, w);
    }
  }

  lemma {:induction false} ReplayKeepsGuards(db: Db, ws: seq<Write>)
    requires GuardInv(db)
    ensures GuardInv(Replay(db, ws))
    ensures Evolves(db, Replay(db, ws))
    decreases |ws|
  {
    if ws == [] {
      EvolvesIsReflexive(db);
    } else {
      SubmitKeepsGuards(db, ws[0]);
      ReplayKeepsGuards(Submit(db, ws[0]), ws[1..]);
      hide GuardInv, Evolves, Submit;
      EvolvesIsTransitive(db, Submit(db, ws[0]), Replay(db, ws));
    }
  }

  lemma EvolvesIsReflexive(a: Db)
    ensures Evolves(a, a)
  {
  }

  lemma EvolvesIsTransitive(a: Db, b: Db, c: Db)
    requires Evolves(a, b) && Evolves(b, c)
    ensures Evolves(a, c)
  {
  }

  /**
   Guard-layer safety: whatever sequence of writes anyone attempts, first `earlier` and then `later`,
   attempt and redrive counters never fall, a DELIVERED row never changes again, evidence and terminal
   ledger entries are permanent, and every terminal row shows agreeing evidence.
   */
  lemma GuardLayerSafety(earlier: seq<Write>, later: seq<Write>)
    ensures var a := Replay(EmptyDb, earlier);
            var b := Replay(a, later);
            GuardInv(a) && GuardInv(b) && Evolves(a, b)
  {
    ReplayKeepsGuards(EmptyDb, earlier);
    ReplayKeepsGuards(Replay(EmptyDb, earlier), later);
  }

  /**
   What trigger and CHECKs leave of updates, whoever issues them: a row is leased only when due, by one attempt and
   until a later time; taken over only after its expiry; it leaves IN_FLIGHT only on the evidence of that attempt by
   its owner; only a re-drive changes its ceiling or revives it; and a delivered row is not touched.
   */
  lemma AcceptedUpdates(db: Db, id: nat, next: OutboxRow)
    requires Accepts(db, UpdateRow(id, next))
    ensures var was := db.outbox[id];
            && was.state != DELIVERED && next.intent == was.intent
            && (next.state == IN_FLIGHT ==>
                  && was.state in {PENDING, IN_FLIGHT} && next.attemptCount == was.attemptCount + 1
                  && next.leaseOwner.Some? && next.leaseExpiresAt.Some? && next.leaseExpiresAt.value > next.updatedAt
                  && (was.state == PENDING ==> was.nextAttemptAt <= next.updatedAt)
                  && (was.state == IN_FLIGHT && was.leaseExpiresAt.Some? ==> was.leaseExpiresAt.value <= next.updatedAt))
            && (was.state == IN_FLIGHT && next.state != IN_FLIGHT ==>
                  && next.leaseOwner.None? && next.attemptCount == was.attemptCount
                  && was.attemptCount in EventsOf(db, id)
                  && var e := EventsOf(db, id)[was.attemptCount];
                     && Some(e.leaseOwner) == was.leaseOwner && e.httpStatus == next.lastHttpStatus
                     && e.errorClass == next.lastErrorClass && (next.state == DELIVERED <==> e.outcome == ATTEMPT_DELIVERED)
                     && (next.state == PENDING ==> next.attemptCount < next.maxAttempts))
            && (next.state == DELIVERED ==> was.state == IN_FLIGHT && Success(next.lastHttpStatus))
            && (was.state == DEAD_LETTER <==> was.state != IN_FLIGHT && next.state == PENDING)
            && (was.state == DEAD_LETTER ==> next.redriveCount == was.redriveCount + 1)
            && (next.maxAttempts != was.maxAttempts ==> was.state == DEAD_LETTER)
  {
    hide LedgerAt, GuardTerminal;
  }

  /**
   The triggers alone do not tie the redrive counter to re-drives: outside DEAD_LETTER -> PENDING any
   accepted update may also raise it. Only the repository's own statements pin it down.
   */
  lemma RedriveCounterIsLoose(db: Db, id: nat, row: OutboxRow, more: nat)
    requires Accepts(db, UpdateRow(id, row))
    requires !(db.outbox[id].state == DEAD_LETTER && row.state == PENDING)
    requires row.redriveCount + more <= 100
    ensures Accepts(db, UpdateRow(id, row.(redriveCount := row.redriveCount + more)))
  {
    var was := db.outbox[id];
    assert GuardRowUpdate(was, row, EventAt(db, id, was.attemptCount), LedgerAt(db, KeyOf(was.intent)));
  }
}
