/**
 The invariant of the tables under the repository's own operations, and the refinement: from any state that
 satisfies it, the writes an operation issues pass every trigger and CHECK and add up to the stated effect.
 */
module OutboxInvariant {
  import opened Wrappers
  import opened Identity
  import opened OutboxTables
  import opened OutboxGuards
  import opened OutboxOperations

  /** One row with its own evidence and ledger entry. */
  ghost predicate RowInv(r: OutboxRow, events: map<int, AttemptEvent>, ledger: Option<LedgerRow>) {
    && RowChecks(r)
    && r.intent.idempotencyKey
       == DeliveryIdempotencyKey(r.intent.tenantId, r.intent.evaluationId, r.intent.transition)
    && r.attemptCount <= r.maxAttempts
    && (r.state == PENDING ==> r.attemptCount < r.maxAttempts)
    && r.redriveCount <= r.attemptCount
    && (r.state != PENDING ==> r.redriveCount < r.attemptCount)
    && EvidenceInv(r, events)
    && LedgerInv(r, ledger)
  }

  ghost predicate EvidenceInv(r: OutboxRow, events: map<int, AttemptEvent>) {
    && (forall n | n in events :: 1 <= n <= r.attemptCount && EventChecks(n, events[n]))
    && (forall n | n in events :: events[n].outcome == ATTEMPT_DELIVERED ==> n == r.attemptCount && r.state == DELIVERED)
    && (r.state == IN_FLIGHT ==> r.attemptCount !in events)
    && (r.state != IN_FLIGHT && r.attemptCount >= 1 ==>
          && r.attemptCount in events
          && (r.state == DELIVERED ==> events[r.attemptCount].outcome == ATTEMPT_DELIVERED)
          && events[r.attemptCount].httpStatus == r.lastHttpStatus
          && events[r.attemptCount].errorClass == r.lastErrorClass)
  }

  ghost predicate LedgerInv(r: OutboxRow, ledger: Option<LedgerRow>) {
    if Terminal(r.state) || r.redriveCount > 0 then
      && ledger.Some?
      && SameIdentity(ledger.value, r.intent)
      && ledger.value.status
         == (if r.state == DELIVERED && r.redriveCount == 0 then LEDGER_DELIVERED else LEDGER_FAILED)
    else
      ledger.Some? ==> SameIdentity(ledger.value, r.intent) && ledger.value.status == CLAIMED
  }

  ghost predicate DbInv(db: Db) {
    && (forall id | id in db.outbox :: RowOk(db, id))
    && (forall id | id in db.events :: id in db.outbox)
    && (forall i, j | i in db.outbox && j in db.outbox && KeyOf(db.outbox[i].intent) == KeyOf(db.outbox[j].intent) ::
          i == j)
    && (forall key | key in db.ledger :: key.evaluationId in db.evaluations)
  }

  ghost predicate RowOk(db: Db, id: nat)
    requires id in db.outbox
  {
    var i := db.outbox[id].intent;
    && RowInv(db.outbox[id], EventsOf(db, id), LedgerAt(db, KeyOf(i)))
    && i.evaluationId in db.evaluations
    && db.evaluations[i.evaluationId] == Evaluation(i.tenantId, i.fingerprint, i.transition)
  }

  lemma RowBounds(db: Db, id: nat)
    requires DbInv(db) && id in db.outbox
    ensures var r := db.outbox[id];
            && 0 <= r.redriveCount <= r.attemptCount <= r.maxAttempts <= MAX_ATTEMPT_CEILING
            && (r.state == PENDING ==> r.attemptCount < r.maxAttempts)
            && (r.state == IN_FLIGHT <==> r.leaseExpiresAt.Some?)
            && (r.state == IN_FLIGHT <==> r.leaseOwner.Some?)
            && (r.state != PENDING ==> r.attemptCount >= 1)
  {
    assert RowOk(db, id);
  }

  /** What a lease says stays true: its snapshot is exact for as long as it is current. */
  ghost predicate Faithful(db: Db, l: LeasedDelivery) {
    && l.outboxId in db.outbox
    && var row := db.outbox[l.outboxId];
       && l.intent == row.intent
       && 1 <= l.attemptNumber <= row.attemptCount
       && 1 <= |l.leaseOwner| <= 200
       && (row.state == IN_FLIGHT && row.attemptCount == l.attemptNumber ==>
             && row.leaseOwner == Some(l.leaseOwner)
             && row.leaseExpiresAt == Some(l.leaseExpiresAt)
             && row.maxAttempts == l.maxAttempts)
  }

  /** What the transactions of all workers, operators and evaluators keep, whichever way they interleave. */
  ghost predicate Rely(a: Db, b: Db) {
    && (forall id | id in a.outbox :: id in b.outbox && RowMoves(a.outbox[id], b.outbox[id]))
    && (forall id, n | n in EventsOf(a, id) :: n in EventsOf(b, id) && EventsOf(b, id)[n] == EventsOf(a, id)[n])
    && (forall key | key in a.ledger && a.ledger[key].status != CLAIMED ::
          key in b.ledger && b.ledger[key] == a.ledger[key])
  }

  ghost predicate RowMoves(a: OutboxRow, b: OutboxRow) {
    && b.intent == a.intent
    && b.attemptCount >= a.attemptCount
    && b.redriveCount >= a.redriveCount
    && (a.state == DELIVERED ==> b == a)
    && (a.state != IN_FLIGHT && b.state == IN_FLIGHT ==> b.attemptCount > a.attemptCount)
    && (b.state == IN_FLIGHT && b.attemptCount == a.attemptCount ==> b == a)
  }

  lemma RelyKeepsFaithful(a: Db, b: Db, l: LeasedDelivery)
    requires Rely(a, b) && Faithful(a, l)
    ensures Faithful(b, l)
  {
    assert RowMoves(a.outbox[l.outboxId], b.outbox[l.outboxId]);
  }

  lemma RelyIsReflexive(db: Db)
    ensures Rely(db, db)
  {
  }

  lemma RelyIsTransitive(a: Db, b: Db, c: Db)
    requires Rely(a, b) && Rely(b, c)
    ensures Rely(a, c)
  {
    forall id | id in a.outbox
      ensures id in c.outbox && RowMoves(a.outbox[id], c.outbox[id])
    {
      assert RowMoves(a.outbox[id], b.outbox[id]) && RowMoves(b.outbox[id], c.outbox[id]);
    }
  }

  // ---------------------------------------------------------- refinements

  lemma LedgerWritesAreAccepted(db: Db, l: LeasedDelivery, status: LedgerStatus, r: Report)
    requires RowOkFor(db, l)
    requires status != CLAIMED && EventChecks(l.attemptNumber, Evidence(l, r))
    requires status == LEDGER_DELIVERED <==> r.outcome == ATTEMPT_DELIVERED
    requires status == LEDGER_FAILED ==> !Success(r.httpStatus) && NotBlank(r.errorClass.value)
    ensures var key := KeyOf(l.intent);
            Transact(db, LedgerWrites(db, l, status, r))
            == Some(db.(ledger := db.ledger[key := LedgerEntry(LedgerAt(db, key), l, status, r)]))
  {
    var key := KeyOf(l.intent);
    var claim := InsertLedger(key, FreshClaim(l, r.completedAt));
    var entry := LedgerEntry(LedgerAt(db, key), l, status, r);
    assert Accepts(db, claim);
    var db1 := Commit(db, claim);
    if key in db.ledger && db.ledger[key].status != CLAIMED {
      assert db1 == db && db.ledger[key := entry] == db.ledger;
      assert LedgerWrites(db, l, status, r)[1..] == [];
      assert Transact(db1, []) == Some(db1);
    } else {
      var complete := UpdateLedger(key, entry);
      assert LedgerWrites(db, l, status, r)[1..] == [complete];
      assert Accepts(db1, complete);
      assert db1.ledger[key := entry] == db.ledger[key := entry];
      assert [complete][1..] == [];
      var db2 := Commit(db1, complete);
      assert Transact(db2, []) == Some(db2);
      assert Transact(db1, [complete]) == Some(db2);
    }
  }

  /** What the ledger writes need to know about the row they belong to. */
  ghost predicate RowOkFor(db: Db, l: LeasedDelivery) {
    && l.intent.evaluationId in db.evaluations
    && db.evaluations[l.intent.evaluationId] == Evaluation(l.intent.tenantId, l.intent.fingerprint, l.intent.transition)
    && l.intent.transition in {FIRED, RESOLVED}
    && 1 <= |l.intent.destinationHost| <= 253
    && (KeyOf(l.intent) in db.ledger ==> SameIdentity(db.ledger[KeyOf(l.intent)], l.intent))
  }

  lemma {:induction false} TransactAppend(db: Db, a: seq<Write>, b: seq<Write>)
    ensures Transact(db, a + b)
            == if Transact(db, a).Some? then Transact(Transact(db, a).value, b) else None
    decreases |a|
  {
    if a == [] {
      assert a + b == b;
    } else {
      assert (a + b)[1..] == a[1..] + b;
      if Accepts(db, a[0]) {
        TransactAppend(Commit(db, a[0]), a[1..], b);
      }
    }
  }

  lemma TransactOne(db: Db, w: Write)
    ensures Transact(db, [w]) == if Accepts(db, w) then Some(Commit(db, w)) else None
  {
    assert [w][1..] == [];
    if Accepts(db, w) {
      assert Transact(Commit(db, w), []) == Some(Commit(db, w));
    }
  }

  /** Conditions under which the triggers let an outcome through. */
  ghost predicate Admissible(l: LeasedDelivery, state: OutboxState, r: Report) {
    && state != IN_FLIGHT
    && EventChecks(l.attemptNumber, Evidence(l, r))
    && (state == DELIVERED <==> r.outcome == ATTEMPT_DELIVERED)
    && (state == PENDING ==> r.outcome != PERMANENT_FAILURE && !l.IsFinalAttempt())
    && (state == DEAD_LETTER ==>
          NotBlank(r.errorClass.value) && (r.outcome == PERMANENT_FAILURE || l.IsFinalAttempt()))
  }

  lemma LedgerAfterOutcome(db: Db, l: LeasedDelivery, state: OutboxState, r: Report)
    requires DbInv(db) && Faithful(db, l) && Holds(db, l) && Terminal(state) && Admissible(l, state, r)
    ensures var row := db.outbox[l.outboxId];
            var next := SettledRow(row, state, row.nextAttemptAt, r);
            GuardTerminal(row, next, Some(LedgerEntry(LedgerAt(db, KeyOf(l.intent)), l, StatusFor(state), r)))
  {
    assert RowOk(db, l.outboxId);
  }

  lemma OutcomeMeetsEvidence(db: Db, l: LeasedDelivery, state: OutboxState, next: Time, r: Report)
    requires DbInv(db) && Faithful(db, l) && Holds(db, l) && Admissible(l, state, r)
    requires Terminal(state) ==> next == db.outbox[l.outboxId].nextAttemptAt
    ensures var row := db.outbox[l.outboxId];
            var ledger := LedgerAt(db, KeyOf(l.intent));
            GuardOutcome(row, SettledRow(row, state, next, r), Some(Evidence(l, r)),
                         if Terminal(state) then Some(LedgerEntry(ledger, l, StatusFor(state), r)) else ledger)
  {
    if Terminal(state) {
      LedgerAfterOutcome(db, l, state, r);
    }
    hide LedgerEntry, GuardTerminal, DbInv, EventChecks, StatusFor;
  }

  /** The row update of an admissible outcome passes the trigger, given its evidence and ledger entry. */
  lemma OutcomePassesGuard(db: Db, l: LeasedDelivery, state: OutboxState, next: Time, r: Report)
    requires DbInv(db) && Faithful(db, l) && Holds(db, l) && Admissible(l, state, r)
    requires Terminal(state) ==> next == db.outbox[l.outboxId].nextAttemptAt
    ensures var row := db.outbox[l.outboxId];
            var settled := SettledRow(row, state, next, r);
            var ledger := LedgerAt(db, KeyOf(l.intent));
            && RowChecks(settled) && l.attemptNumber !in EventsOf(db, l.outboxId)
            && GuardRowUpdate(row, settled, Some(Evidence(l, r)),
                              if Terminal(state) then Some(LedgerEntry(ledger, l, StatusFor(state), r)) else ledger)
  {
    assert RowOk(db, l.outboxId);
    OutcomeMeetsEvidence(db, l, state, next, r);
    var row := db.outbox[l.outboxId];
    SettledRowIsChecked(row, EventsOf(db, l.outboxId), LedgerAt(db, KeyOf(l.intent)), l, state, next, r);
    ActiveAttemptIsUnrecorded(db, l);
    hide LedgerEntry, GuardOutcome, RowChecks, RowInv, DbInv, EventChecks, StatusFor, Evidence;
  }

  /** The tables between the evidence and the rest of the outcome transaction. */
  function WithEvidence(db: Db, l: LeasedDelivery, r: Report): Db {
    db.(events := db.events[l.outboxId := EventsOf(db, l.outboxId)[l.attemptNumber := Evidence(l, r)]])
  }

  lemma EvidenceIsAccepted(db: Db, l: LeasedDelivery, state: OutboxState, r: Report)
    requires DbInv(db) && Faithful(db, l) && Holds(db, l) && Admissible(l, state, r)
    requires l.attemptNumber !in EventsOf(db, l.outboxId)
    ensures var db1 := WithEvidence(db, l, r);
            && Transact(db, [InsertEvent(l.outboxId, l.attemptNumber, Evidence(l, r))]) == Some(db1)
            && RowOkFor(db1, l) && EventAt(db1, l.outboxId, l.attemptNumber) == Some(Evidence(l, r))
  {
    assert RowOk(db, l.outboxId);
    TransactOne(db, InsertEvent(l.outboxId, l.attemptNumber, Evidence(l, r)));
    hide EventChecks, EvidenceInv, Transact;
  }

  lemma TerminalOutcomeIsAccepted(db: Db, l: LeasedDelivery, state: OutboxState, next: Time, r: Report)
    requires Holds(db, l) && Terminal(state) && Admissible(l, state, r) && RowOkFor(WithEvidence(db, l, r), l)
    requires var settled := SettledRow(db.outbox[l.outboxId], state, next, r);
             && RowChecks(settled) && l.intent == db.outbox[l.outboxId].intent
             && GuardRowUpdate(db.outbox[l.outboxId], settled, Some(Evidence(l, r)),
                               Some(LedgerEntry(LedgerAt(db, KeyOf(l.intent)), l, StatusFor(state), r)))
    ensures Transact(WithEvidence(db, l, r), LedgerWrites(db, l, StatusFor(state), r)
                                             + [UpdateRow(l.outboxId, SettledRow(db.outbox[l.outboxId], state, next, r))])
            == Some(Settle(db, l, state, next, r))
  {
    var db1 := WithEvidence(db, l, r);
    var key := KeyOf(l.intent);
    var last := UpdateRow(l.outboxId, SettledRow(db.outbox[l.outboxId], state, next, r));
    LedgerWritesAreAccepted(db1, l, StatusFor(state), r);
    assert LedgerWrites(db1, l, StatusFor(state), r) == LedgerWrites(db, l, StatusFor(state), r);
    var db2 := db1.(ledger := db1.ledger[key := LedgerEntry(LedgerAt(db1, key), l, StatusFor(state), r)]);
    TransactAppend(db1, LedgerWrites(db, l, StatusFor(state), r), [last]);
    hide Transact, LedgerWrites, LedgerEntry, SettledRow, Evidence, GuardRowUpdate, RowChecks;
    TransactOne(db2, last);
  }

  lemma PendingOutcomeIsAccepted(db: Db, l: LeasedDelivery, state: OutboxState, next: Time, r: Report)
    requires Holds(db, l) && !Terminal(state)
    requires var settled := SettledRow(db.outbox[l.outboxId], state, next, r);
             && RowChecks(settled) && l.intent == db.outbox[l.outboxId].intent
             && GuardRowUpdate(db.outbox[l.outboxId], settled, Some(Evidence(l, r)), LedgerAt(db, KeyOf(l.intent)))
    ensures Transact(WithEvidence(db, l, r), [UpdateRow(l.outboxId, SettledRow(db.outbox[l.outboxId], state, next, r))])
            == Some(Settle(db, l, state, next, r))
  {
    hide Transact, SettledRow, Evidence, GuardRowUpdate, RowChecks;
    TransactOne(WithEvidence(db, l, r), UpdateRow(l.outboxId, SettledRow(db.outbox[l.outboxId], state, next, r)));
  }

  lemma OutcomeWritesInOrder(db: Db, l: LeasedDelivery, state: OutboxState, next: Time, r: Report)
    requires Holds(db, l)
    ensures var last := [UpdateRow(l.outboxId, SettledRow(db.outbox[l.outboxId], state, next, r))];
            OutcomeWrites(db, l, state, next, r)
            == [InsertEvent(l.outboxId, l.attemptNumber, Evidence(l, r))]
               + if Terminal(state) then LedgerWrites(db, l, StatusFor(state), r) + last else last
  {
    hide LedgerWrites, SettledRow, Evidence;
  }

  lemma FaithfulIntent(db: Db, l: LeasedDelivery)
    requires Faithful(db, l)
    ensures l.outboxId in db.outbox && l.intent == db.outbox[l.outboxId].intent
  {
  }

  /** Refinement for outcomes: accepted write by write, and adding up to Settle. */
  lemma OutcomeIsAccepted(db: Db, l: LeasedDelivery, state: OutboxState, next: Time, r: Report)
    requires DbInv(db) && Faithful(db, l) && Holds(db, l) && Admissible(l, state, r)
    requires Terminal(state) ==> next == db.outbox[l.outboxId].nextAttemptAt
    ensures Transact(db, OutcomeWrites(db, l, state, next, r)) == Some(Settle(db, l, state, next, r))
  {
    hide *;
    FaithfulIntent(db, l);
    OutcomePassesGuard(db, l, state, next, r);
    EvidenceIsAccepted(db, l, state, r);
    OutcomeWritesInOrder(db, l, state, next, r);
    var last := [UpdateRow(l.outboxId, SettledRow(db.outbox[l.outboxId], state, next, r))];
    var evidence := [InsertEvent(l.outboxId, l.attemptNumber, Evidence(l, r))];
    if Terminal(state) {
      TerminalOutcomeIsAccepted(db, l, state, next, r);
      TransactAppend(db, evidence, LedgerWrites(db, l, StatusFor(state), r) + last);
    } else {
      PendingOutcomeIsAccepted(db, l, state, next, r);
      TransactAppend(db, evidence, last);
    }
  }

  lemma LedgerWritesTouchOnlyTheLedger(db: Db, l: LeasedDelivery, status: LedgerStatus, r: Report)
    ensures var d := Transact(db, LedgerWrites(db, l, status, r));
            d.Some? ==> d.value.outbox == db.outbox && d.value.events == db.events
  {
    var ws := LedgerWrites(db, l, status, r);
    var rest := ws[1..];
    assert rest == [] || (|rest| == 1 && rest[0].UpdateLedger?);
    if Accepts(db, ws[0]) && rest != [] {
      TransactOne(Commit(db, ws[0]), rest[0]);
      assert rest == [rest[0]];
    }
  }

  /** The converse: a failure the triggers do not admit is refused, and the whole transaction rolls back. */
  lemma OutcomeIsRefused(db: Db, l: LeasedDelivery, state: OutboxState, next: Time, r: Report)
    requires Faithful(db, l) && Holds(db, l) && !Admissible(l, state, r)
    requires state == PENDING || state == DEAD_LETTER
    requires r.outcome != ATTEMPT_DELIVERED
    requires l.attemptNumber !in EventsOf(db, l.outboxId)
    ensures Transact(db, OutcomeWrites(db, l, state, next, r)) == None
  {
    var evidence := InsertEvent(l.outboxId, l.attemptNumber, Evidence(l, r));
    TransactOne(db, evidence);
    var ledgerWrites := if Terminal(state) then LedgerWrites(db, l, StatusFor(state), r) else [];
    var last := UpdateRow(l.outboxId, SettledRow(db.outbox[l.outboxId], state, next, r));
    TransactAppend(db, [evidence], ledgerWrites);
    TransactAppend(db, [evidence] + ledgerWrites, [last]);
    if Accepts(db, evidence) {
      var db1 := Commit(db, evidence);
      if Terminal(state) {
        assert ledgerWrites == LedgerWrites(db1, l, StatusFor(state), r);
        LedgerWritesTouchOnlyTheLedger(db1, l, StatusFor(state), r);
      }
      var d := Transact(db1, ledgerWrites);
      if d.Some? {
        assert EventAt(d.value, l.outboxId, l.attemptNumber) == Some(Evidence(l, r));
        TransactOne(d.value, last);
        assert !Accepts(d.value, last);
      }
    }
  }

  // --------------------------------------------------------- preservation

  lemma SettledRowIsChecked(row: OutboxRow, events: map<int, AttemptEvent>, ledger: Option<LedgerRow>,
                            l: LeasedDelivery, state: OutboxState, next: Time, r: Report)
    requires RowInv(row, events, ledger) && row.state == IN_FLIGHT && row.attemptCount == l.attemptNumber
    requires row.maxAttempts == l.maxAttempts && Admissible(l, state, r)
    ensures RowChecks(SettledRow(row, state, next, r))
    ensures state == PENDING ==> row.attemptCount < row.maxAttempts
  {
    hide EvidenceInv, LedgerInv;
  }

  lemma SettledEvidence(row: OutboxRow, events: map<int, AttemptEvent>, l: LeasedDelivery, state: OutboxState, next: Time, r: Report)
    requires EvidenceInv(row, events) && row.state == IN_FLIGHT && row.attemptCount == l.attemptNumber
    requires Admissible(l, state, r) && 1 <= l.attemptNumber
    ensures EvidenceInv(SettledRow(row, state, next, r), events[l.attemptNumber := Evidence(l, r)])
  {
    hide EventChecks;
  }

  lemma SettledLedger(row: OutboxRow, ledger: Option<LedgerRow>, l: LeasedDelivery, state: OutboxState, next: Time, r: Report)
    requires LedgerInv(row, ledger) && row.state == IN_FLIGHT && l.intent == row.intent && state != IN_FLIGHT
    requires row.redriveCount >= 0
    ensures LedgerInv(SettledRow(row, state, next, r),
                      if Terminal(state) then Some(LedgerEntry(ledger, l, StatusFor(state), r)) else ledger)
  {
  }

  lemma SettleKeepsRow(db: Db, l: LeasedDelivery, state: OutboxState, next: Time, r: Report)
    requires DbInv(db) && Faithful(db, l) && Holds(db, l) && Admissible(l, state, r)
    ensures RowOk(Settle(db, l, state, next, r), l.outboxId)
  {
    assert RowOk(db, l.outboxId);
    var row, events, ledger := db.outbox[l.outboxId], EventsOf(db, l.outboxId), LedgerAt(db, KeyOf(l.intent));
    SettledRowIsChecked(row, events, ledger, l, state, next, r);
    SettledEvidence(row, events, l, state, next, r);
    SettledLedger(row, ledger, l, state, next, r);
    hide DbInv, RowChecks, EvidenceInv, LedgerInv, Evidence, LedgerEntry, StatusFor, DeliveryIdempotencyKey;
  }

  lemma UntouchedRowStaysOk(a: Db, b: Db, id: nat)
    requires id in a.outbox && RowOk(a, id)
    requires id in b.outbox && b.outbox[id] == a.outbox[id]
    requires EventsOf(b, id) == EventsOf(a, id)
    requires LedgerAt(b, KeyOf(a.outbox[id].intent)) == LedgerAt(a, KeyOf(a.outbox[id].intent))
    requires forall e | e in a.evaluations :: e in b.evaluations && b.evaluations[e] == a.evaluations[e]
    ensures RowOk(b, id)
  {
  }

  /** `b` differs from `a` in one row, its evidence and its ledger entry. */
  ghost predicate OneRowChanged(a: Db, b: Db, id: nat) {
    && id in a.outbox
    && b.evaluations == a.evaluations
    && b.outbox.Keys == a.outbox.Keys && (forall i | i in a.outbox && i != id :: b.outbox[i] == a.outbox[i])
    && (forall i | i != id :: EventsOf(b, i) == EventsOf(a, i))
    && b.events.Keys <= a.events.Keys + {id}
    && (forall key | key != KeyOf(a.outbox[id].intent) :: LedgerAt(b, key) == LedgerAt(a, key))
    && b.outbox[id].intent == a.outbox[id].intent
  }

  lemma OtherRowsStayOk(a: Db, b: Db, id: nat, i: nat)
    requires DbInv(a) && OneRowChanged(a, b, id) && i in a.outbox && i != id
    ensures RowOk(b, i)
  {
    hide RowInv;
    assert RowOk(a, i);
    UntouchedRowStaysOk(a, b, i);
  }

  lemma LedgerKeysAreEvaluated(a: Db, b: Db, id: nat, key: LedgerKey)
    requires DbInv(a) && OneRowChanged(a, b, id) && key in b.ledger
    ensures key.evaluationId in b.evaluations
  {
    hide RowInv;
    if key == KeyOf(a.outbox[id].intent) {
      assert RowOk(a, id);
    } else {
      assert LedgerAt(b, key) == LedgerAt(a, key);
    }
  }

  lemma SameRows(a: Db, b: Db, id: nat)
    requires DbInv(a) && OneRowChanged(a, b, id)
    ensures id in a.outbox && b.outbox.Keys == a.outbox.Keys && b.events.Keys <= b.outbox.Keys
  {
  }

  lemma KeysStayUnique(a: Db, b: Db, id: nat, i: nat, j: nat)
    requires DbInv(a) && OneRowChanged(a, b, id) && i in b.outbox && j in b.outbox
    requires KeyOf(b.outbox[i].intent) == KeyOf(b.outbox[j].intent)
    ensures i == j
  {
    assert KeyOf(a.outbox[i].intent) == KeyOf(a.outbox[j].intent);
  }

  /** A step that changes one row, its evidence and its ledger entry keeps the invariant if that row stays good. */
  lemma OneRowKeepsInv(a: Db, b: Db, id: nat)
    requires DbInv(a) && OneRowChanged(a, b, id) && RowOk(b, id)
    ensures DbInv(b)
  {
    SameRows(a, b, id);
    hide OneRowChanged, RowOk, KeyOf;
    forall i | i in b.outbox
      ensures RowOk(b, i)
    {
      if i != id {
        OtherRowsStayOk(a, b, id, i);
      }
    }
    forall i, j | i in b.outbox && j in b.outbox && KeyOf(b.outbox[i].intent) == KeyOf(b.outbox[j].intent)
      ensures i == j
    {
      KeysStayUnique(a, b, id, i, j);
    }
    forall key | key in b.ledger
      ensures key.evaluationId in b.evaluations
    {
      LedgerKeysAreEvaluated(a, b, id, key);
    }
  }

  lemma SettledRowMoves(db: Db, l: LeasedDelivery, state: OutboxState, next: Time, r: Report)
    requires Faithful(db, l) && Holds(db, l) && Admissible(l, state, r)
    ensures RowMoves(db.outbox[l.outboxId], SettledRow(db.outbox[l.outboxId], state, next, r))
  {
  }

  lemma LedgerEntryIsFinal(was: Option<LedgerRow>, l: LeasedDelivery, status: LedgerStatus, r: Report)
    ensures was.Some? && was.value.status != CLAIMED ==> LedgerEntry(was, l, status, r) == was.value
  {
  }

  lemma SettleMoves(db: Db, l: LeasedDelivery, state: OutboxState, next: Time, r: Report)
    requires Faithful(db, l) && Holds(db, l) && Admissible(l, state, r) && l.attemptNumber !in EventsOf(db, l.outboxId)
    ensures Rely(db, Settle(db, l, state, next, r))
  {
    SettledRowMoves(db, l, state, next, r);
    LedgerEntryIsFinal(LedgerAt(db, KeyOf(l.intent)), l, StatusFor(state), r);
  }

  lemma SettleChangesOneRow(db: Db, l: LeasedDelivery, state: OutboxState, next: Time, r: Report)
    requires Faithful(db, l) && Holds(db, l)
    ensures OneRowChanged(db, Settle(db, l, state, next, r), l.outboxId)
  {
  }

  lemma ActiveAttemptIsUnrecorded(db: Db, l: LeasedDelivery)
    requires DbInv(db) && Holds(db, l)
    ensures l.attemptNumber !in EventsOf(db, l.outboxId)
  {
    assert RowOk(db, l.outboxId);
  }

  lemma SettleKeepsInv(db: Db, l: LeasedDelivery, state: OutboxState, next: Time, r: Report)
    requires DbInv(db) && Faithful(db, l) && Holds(db, l) && Admissible(l, state, r)
    ensures DbInv(Settle(db, l, state, next, r))
    ensures Rely(db, Settle(db, l, state, next, r))
  {
    hide *;
    SettleKeepsRow(db, l, state, next, r);
    ActiveAttemptIsUnrecorded(db, l);
    SettleMoves(db, l, state, next, r);
    SettleChangesOneRow(db, l, state, next, r);
    OneRowKeepsInv(db, Settle(db, l, state, next, r), l.outboxId);
  }

  lemma RowUpdateMoves(db: Db, id: nat, row: OutboxRow)
    requires id in db.outbox && row.intent == db.outbox[id].intent && RowMoves(db.outbox[id], row)
    ensures var after := db.(outbox := db.outbox[id := row]);
            Rely(db, after) && OneRowChanged(db, after, id)
  {
  }

  /** The two updates that touch nothing but one row. */
  lemma RowUpdateKeepsInv(db: Db, id: nat, row: OutboxRow)
    requires DbInv(db) && id in db.outbox && row.intent == db.outbox[id].intent
    requires RowInv(row, EventsOf(db, id), LedgerAt(db, KeyOf(row.intent)))
    requires RowMoves(db.outbox[id], row)
    ensures DbInv(db.(outbox := db.outbox[id := row]))
    ensures Rely(db, db.(outbox := db.outbox[id := row]))
  {
    RowUpdateMoves(db, id, row);
    assert RowOk(db, id);
    OneRowKeepsInv(db, db.(outbox := db.outbox[id := row]), id);
  }

  lemma LeasedRowIsGood(row: OutboxRow, events: map<int, AttemptEvent>, ledger: Option<LedgerRow>,
                        event: Option<AttemptEvent>, workerId: string, now: Time, leaseSeconds: Time)
    requires RowInv(row, events, ledger) && Eligible(row, now) && 1 <= |workerId| <= 200 && leaseSeconds > 0.0
    ensures var leased := LeasedRow(row, workerId, now, leaseSeconds);
            RowInv(leased, events, ledger) && RowMoves(row, leased) && RowChecks(leased)
            && GuardRowUpdate(row, leased, event, ledger)
  {
    hide EventChecks;
  }

  /** Refinement for a lease or takeover of an eligible row. */
  lemma LeaseIsAccepted(db: Db, id: nat, workerId: string, now: Time, leaseSeconds: Time)
    requires DbInv(db) && id in db.outbox && Eligible(db.outbox[id], now)
    requires 1 <= |workerId| <= 200 && leaseSeconds > 0.0
    ensures var leased := LeasedRow(db.outbox[id], workerId, now, leaseSeconds);
            var after := db.(outbox := db.outbox[id := leased]);
            Accepts(db, UpdateRow(id, leased)) && DbInv(after) && Rely(db, after)
            && Faithful(after, LeaseOf(id, leased)) && Holds(after, LeaseOf(id, leased))
  {
    var row := db.outbox[id];
    RowIsGood(db, id);
    LeasedRowIsGood(row, EventsOf(db, id), LedgerAt(db, KeyOf(row.intent)), EventAt(db, id, row.attemptCount),
                    workerId, now, leaseSeconds);
    LeaseIsFaithful(db, id, workerId, now, leaseSeconds);
    hide RowInv, DbInv, Rely, RowMoves, GuardRowUpdate, RowChecks, Faithful, Holds, LeaseOf, Eligible;
    GoodUpdateIsAccepted(db, id, LeasedRow(row, workerId, now, leaseSeconds));
  }

  lemma LeaseIsFaithful(db: Db, id: nat, workerId: string, now: Time, leaseSeconds: Time)
    requires DbInv(db) && id in db.outbox && 1 <= |workerId| <= 200
    ensures var leased := LeasedRow(db.outbox[id], workerId, now, leaseSeconds);
            var after := db.(outbox := db.outbox[id := leased]);
            Faithful(after, LeaseOf(id, leased)) && Holds(after, LeaseOf(id, leased))
  {
    RowBounds(db, id);
    hide DbInv;
  }

  lemma RowIsGood(db: Db, id: nat)
    requires DbInv(db) && id in db.outbox
    ensures RowInv(db.outbox[id], EventsOf(db, id), LedgerAt(db, KeyOf(db.outbox[id].intent)))
  {
    hide RowInv;
    assert RowOk(db, id);
  }

  /** An update that suits its row and passes the trigger is accepted and keeps the tables good. */
  lemma GoodUpdateIsAccepted(db: Db, id: nat, next: OutboxRow)
    requires DbInv(db) && id in db.outbox && next.intent == db.outbox[id].intent
    requires RowInv(next, EventsOf(db, id), LedgerAt(db, KeyOf(next.intent)))
    requires RowMoves(db.outbox[id], next) && RowChecks(next)
    requires GuardRowUpdate(db.outbox[id], next, EventAt(db, id, db.outbox[id].attemptCount),
                            LedgerAt(db, KeyOf(db.outbox[id].intent)))
    ensures var after := db.(outbox := db.outbox[id := next]);
            Accepts(db, UpdateRow(id, next)) && DbInv(after) && Rely(db, after)
  {
    hide RowInv, DbInv, Rely, RowMoves, GuardRowUpdate, RowChecks;
    RowUpdateKeepsInv(db, id, next);
  }

  lemma RedrivenRowIsGood(row: OutboxRow, events: map<int, AttemptEvent>, ledger: Option<LedgerRow>,
                          event: Option<AttemptEvent>, ceiling: int, now: Time)
    requires RowInv(row, events, ledger) && row.state == DEAD_LETTER && row.attemptCount < ceiling <= MAX_ATTEMPT_CEILING
    ensures var redriven := RedrivenRow(row, ceiling, now);
            RowInv(redriven, events, ledger) && RowMoves(row, redriven) && RowChecks(redriven)
            && GuardRowUpdate(row, redriven, event, ledger)
  {
    hide EventChecks;
  }

  /** Refinement for an operator's re-drive. */
  lemma RedriveIsAccepted(db: Db, tenantId: string, id: nat, now: Time, additional: int)
    requires DbInv(db) && Redrive(db, tenantId, id, now, additional).Ok?
    ensures var row := RedrivenRow(db.outbox[id], NewCeiling(db.outbox[id], additional), now);
            var after := Redrive(db, tenantId, id, now, additional).value;
            Accepts(db, UpdateRow(id, row)) && DbInv(after) && Rely(db, after)
  {
    RedriveUpdatesOneRow(db, tenantId, id, now, additional);
    var row, ceiling := db.outbox[id], NewCeiling(db.outbox[id], additional);
    RowIsGood(db, id);
    RedrivenRowIsGood(row, EventsOf(db, id), LedgerAt(db, KeyOf(row.intent)), EventAt(db, id, row.attemptCount), ceiling, now);
    hide RowInv, DbInv, Rely, RowMoves, GuardRowUpdate, RowChecks, Redrive, NewCeiling;
    GoodUpdateIsAccepted(db, id, RedrivenRow(row, ceiling, now));
  }

  lemma RedriveUpdatesOneRow(db: Db, tenantId: string, id: nat, now: Time, additional: int)
    requires Redrive(db, tenantId, id, now, additional).Ok?
    ensures id in db.outbox && db.outbox[id].state == DEAD_LETTER
    ensures var ceiling := NewCeiling(db.outbox[id], additional);
            && db.outbox[id].attemptCount < ceiling <= MAX_ATTEMPT_CEILING
            && Redrive(db, tenantId, id, now, additional).value
               == db.(outbox := db.outbox[id := RedrivenRow(db.outbox[id], ceiling, now)])
  {
  }

  lemma FreshIntentIsNew(db: Db, intent: Intent, i: nat)
    requires DbInv(db) && FreshIntent(db, intent) && i in db.outbox
    ensures KeyOf(db.outbox[i].intent) != KeyOf(intent)
    ensures db.outbox[i].intent.idempotencyKey != intent.idempotencyKey
  {
    assert RowOk(db, i);
    var other := db.outbox[i].intent;
    if other.idempotencyKey == intent.idempotencyKey {
      KeyIsInjective(other.tenantId, other.evaluationId, other.transition,
                     intent.tenantId, intent.evaluationId, intent.transition);
    }
  }

  /** The tables after an evaluation and its delivery intent committed together. */
  function Evaluated(db: Db, id: nat, intent: Intent, maxAttempts: int): Db {
    Db(db.evaluations[intent.evaluationId := Evaluation(intent.tenantId, intent.fingerprint, intent.transition)],
       db.outbox[id := NewRow(intent, maxAttempts)],
       db.events[id := map[]],
       db.ledger)
  }

  function EvaluationWrites(id: nat, intent: Intent, maxAttempts: int): seq<Write> {
    [AppendEvaluation(intent.evaluationId, Evaluation(intent.tenantId, intent.fingerprint, intent.transition)),
     InsertRow(id, NewRow(intent, maxAttempts))]
  }

  lemma NewRowIsOk(db: Db, id: nat, intent: Intent, maxAttempts: int)
    requires DbInv(db) && id !in db.outbox && FreshIntent(db, intent) && 1 <= maxAttempts <= 100
    ensures RowOk(Evaluated(db, id, intent, maxAttempts), id)
  {
    KeyFitsItsColumn(intent.tenantId, intent.evaluationId, intent.transition);
    assert KeyOf(intent) !in db.ledger;
    assert RowInv(NewRow(intent, maxAttempts), map[], None);
  }

  lemma EvaluatedMoves(db: Db, id: nat, intent: Intent, maxAttempts: int)
    requires id !in db.outbox && id !in db.events
    ensures Rely(db, Evaluated(db, id, intent, maxAttempts))
  {
  }

  lemma EvaluationLeavesRowsOk(db: Db, id: nat, intent: Intent, maxAttempts: int, i: nat)
    requires DbInv(db) && id !in db.outbox && FreshIntent(db, intent) && i in db.outbox
    ensures RowOk(Evaluated(db, id, intent, maxAttempts), i)
  {
    hide RowInv;
    assert RowOk(db, i);
    UntouchedRowStaysOk(db, Evaluated(db, id, intent, maxAttempts), i);
  }

  lemma EvaluatedKeepsInv(db: Db, id: nat, intent: Intent, maxAttempts: int)
    requires DbInv(db) && id !in db.outbox && FreshIntent(db, intent) && 1 <= maxAttempts <= 100
    ensures DbInv(Evaluated(db, id, intent, maxAttempts))
    ensures Rely(db, Evaluated(db, id, intent, maxAttempts))
  {
    hide RowInv, Rely, FreshIntent;
    var after := Evaluated(db, id, intent, maxAttempts);
    NewRowIsOk(db, id, intent, maxAttempts);
    assert id !in db.events;
    EvaluatedMoves(db, id, intent, maxAttempts);
    forall i | i in db.outbox
      ensures RowOk(after, i) && KeyOf(db.outbox[i].intent) != KeyOf(intent)
    {
      EvaluationLeavesRowsOk(db, id, intent, maxAttempts, i);
      FreshIntentIsNew(db, intent, i);
    }
    hide RowOk;
    forall i, j | i in after.outbox && j in after.outbox && KeyOf(after.outbox[i].intent) == KeyOf(after.outbox[j].intent)
      ensures i == j
    {
      assert i != id && j != id ==> KeyOf(db.outbox[i].intent) == KeyOf(db.outbox[j].intent);
    }
  }

  /** Refinement for the insert of a fresh intent, in the transaction that appends its evaluation. */
  lemma EvaluationIsAccepted(db: Db, id: nat, intent: Intent, maxAttempts: int)
    requires DbInv(db) && id !in db.outbox && FreshIntent(db, intent) && 1 <= maxAttempts <= 100
    ensures Transact(db, EvaluationWrites(id, intent, maxAttempts)) == Some(Evaluated(db, id, intent, maxAttempts))
  {
    KeyFitsItsColumn(intent.tenantId, intent.evaluationId, intent.transition);
    var ws := EvaluationWrites(id, intent, maxAttempts);
    assert Accepts(db, ws[0]);
    var db1 := Commit(db, ws[0]);
    forall i | i in db.outbox
      ensures KeyOf(db.outbox[i].intent) != KeyOf(intent)
      ensures db.outbox[i].intent.idempotencyKey != intent.idempotencyKey
    {
      FreshIntentIsNew(db, intent, i);
    }
    assert !KeyTaken(db1, intent) && !IntentExists(db1, KeyOf(intent));
    assert Accepts(db1, ws[1]);
    assert ws[1..] == [ws[1]];
    TransactOne(db1, ws[1]);
  }

  /** An intent as the evaluation transaction builds it: a new bigint evaluation id and contract-sized texts. */
  ghost predicate FreshIntent(db: Db, i: Intent) {
    && i.evaluationId !in db.evaluations
    && i.evaluationId < 0x8000_0000_0000_0000
    && 1 <= |i.tenantId| <= 100
    && 1 <= |i.destinationHost| <= 253
    && i.transition in {FIRED, RESOLVED}
    && i.idempotencyKey == DeliveryIdempotencyKey(i.tenantId, i.evaluationId, i.transition)
  }
}
