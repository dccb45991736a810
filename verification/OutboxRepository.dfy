/**
 The repository itself, updating the tables in place statement by statement inside transactions that roll back
 on any error, and the worker loop above it. Every statement goes through the triggers and CHECKs.
 */
module OutboxRepository {
  import opened Wrappers
  import opened Identity
  import opened OutboxTables
  import opened OutboxGuards
  import opened OutboxOperations
  import opened OutboxInvariant
  import opened OutboxBatch
  import opened Delivery
  import opened Backoff
  import S = OutboxSystem

  /** One outcome as it was recorded; `due` is set on a retry. */
  datatype Recorded = Recorded(lease: LeasedDelivery, state: OutboxState, due: Option<Time>, report: Report)

  class AlertOutboxRepository {
    var evaluations: map<nat, Evaluation>
    var outbox: map<nat, OutboxRow>
    var events: map<nat, map<int, AttemptEvent>>
    var ledger: map<LedgerKey, LedgerRow>
    ghost var recorded: seq<Recorded>  // the outcomes this object recorded, in order

    function Tables(): Db
      reads this
    {
      Db(evaluations, outbox, events, ledger)
    }

    ghost predicate Valid()
      reads this
    {
      DbInv(Tables())
    }

    constructor ()
      ensures Valid() && Tables() == EmptyDb && recorded == []
    {
      evaluations, outbox, events, ledger, recorded := map[], map[], map[], map[], [];
    }

    /** One statement: the triggers and CHECKs decide, and a refusal changes nothing. */
    method Execute(w: Write) returns (accepted: bool)
      modifies this`evaluations, this`outbox, this`events, this`ledger
      ensures accepted <==> Accepts(old(Tables()), w)
      ensures Tables() == Submit(old(Tables()), w)
    {
      accepted := Accepts(Tables(), w);
      if accepted {
        Restore(Commit(Tables(), w));
      }
    }

    method Restore(saved: Db)
      modifies this`evaluations, this`outbox, this`events, this`ledger
      ensures Tables() == saved
    {
      evaluations, outbox, events, ledger := saved.evaluations, saved.outbox, saved.events, saved.ledger;
    }

    /** Whatever other workers, operators and evaluators commit between two of our transactions. */
    method OtherTransactions()
      requires Valid()
      modifies this`evaluations, this`outbox, this`events, this`ledger
      ensures Valid() && Rely(old(Tables()), Tables())
    {
      hide RowInv, DbInv;
    }

    // ------------------------------------------------------------ enqueue

    /** Joins the caller's transaction, which owns the rollback. */
    method EnqueueInTransaction(id: nat, intent: Intent, maxAttempts: int) returns (r: Result<Option<nat>, OutboxError>)
      modifies this`evaluations, this`outbox, this`events, this`ledger
      ensures match Enqueue(old(Tables()), id, intent, maxAttempts)
              case Ok(after) =>
                && Tables() == after
                && r == Ok(if IntentExists(old(Tables()), KeyOf(intent)) then None else Some(id))
              case Err(e) => r == Err(e) && Tables() == old(Tables())
      ensures r.Ok? && r.value == Some(id) ==>
                && id in outbox && outbox == old(outbox)[id := outbox[id]]
                && outbox[id].intent == intent && outbox[id].state == PENDING
                && outbox[id].attemptCount == 0 && outbox[id].maxAttempts == maxAttempts
                && (forall at: Time :: Eligible(outbox[id], at) <==> intent.enqueuedAt <= at)
      ensures r == Ok(None) ==> Tables() == old(Tables()) && IntentExists(old(Tables()), KeyOf(intent))
      ensures r == Err(ValueError) <==> !(1 <= maxAttempts <= 100)
    {
      if maxAttempts < 1 || maxAttempts > MAX_ATTEMPT_CEILING {
        return Err(ValueError);
      }
      var known := IntentExists(Tables(), KeyOf(intent));
      var accepted := Execute(InsertRow(id, NewRow(intent, maxAttempts)));
      r := if !accepted then Err(DatabaseError) else Ok(if known then None else Some(id));
    }

    // -------------------------------------------------------------- lease

    /** SELECT ... ORDER BY next_attempt_at, outbox_id LIMIT batchSize FOR UPDATE SKIP LOCKED. */
    method SelectDue(now: Time, locked: set<nat>, batchSize: nat) returns (ids: seq<nat>)
      ensures IsBatch(outbox, Leasable(outbox, now, locked), batchSize, ids) && Distinct(ids)
    {
      ids := [];
      var candidates := Leasable(outbox, now, locked);
      var rest := candidates;
      while |ids| < batchSize && rest != {}
        invariant rest <= candidates
        invariant forall id :: id in candidates <==> id in rest || id in ids
        invariant forall k | 0 <= k < |ids| :: ids[k] in candidates && ids[k] !in rest
        invariant forall k, m | 0 <= k < m < |ids| :: Precedes(outbox, ids[k], ids[m])
        invariant forall k, j | 0 <= k < |ids| && j in rest :: Precedes(outbox, ids[k], j)
        invariant |ids| <= batchSize && |ids| + |rest| == |candidates|
        decreases |rest|
      {
        hide Precedes, Eligible;
        ghost var earliest := EarliestExists(outbox, rest);
        var first :| first in rest && forall j | j in rest && j != first :: Precedes(outbox, first, j);
        ids := ids + [first];
        rest := rest - {first};
      }
    }

    /** Insert one lease into a list sorted by outbox id. */
    static method InsertById(leases: seq<LeasedDelivery>, l: LeasedDelivery) returns (r: seq<LeasedDelivery>)
      requires SortedById(leases) && forall k | 0 <= k < |leases| :: leases[k].outboxId != l.outboxId
      ensures SortedById(r) && multiset(r) == multiset(leases) + multiset{l}
    {
      var k := 0;
      while k < |leases| && leases[k].outboxId < l.outboxId
        invariant 0 <= k <= |leases|
        invariant forall m | 0 <= m < k :: leases[m].outboxId < l.outboxId
      {
        k := k + 1;
      }
      r := leases[..k] + [l] + leases[k..];
      InsertedInOrder(leases, k, l);
      InsertedOnce(leases, k, l);
    }

    /** One row of the batch UPDATE. */
    method TakeRow(id: nat, workerId: string, now: Time, leaseSeconds: Time) returns (lease: Option<LeasedDelivery>)
      requires Valid() && id in outbox && Eligible(outbox[id], now)
      requires workerId != ""
      modifies this`evaluations, this`outbox, this`events, this`ledger
      ensures Valid() && Rely(old(Tables()), Tables())
      ensures lease.None? <==> |workerId| > 200 || leaseSeconds <= 0.0
      ensures lease.None? ==> Tables() == old(Tables())
      ensures lease.Some? ==>
                var leased := LeasedRow(old(outbox)[id], workerId, now, leaseSeconds);
                && Tables() == old(Tables()).(outbox := old(outbox)[id := leased])
                && lease.value == LeaseOf(id, leased)
                && Faithful(Tables(), lease.value) && Holds(Tables(), lease.value)
    {
      hide RowInv, DbInv, Rely, Faithful;
      ghost var before := Tables();
      RelyIsReflexive(before);
      var leased := LeasedRow(outbox[id], workerId, now, leaseSeconds);
      if |workerId| <= 200 && leaseSeconds > 0.0 {
        LeaseIsAccepted(before, id, workerId, now, leaseSeconds);
      }
      var accepted := Execute(UpdateRow(id, leased));
      lease := if accepted then Some(LeaseOf(id, leased)) else None;
    }

    /**
     Atomically claims the first `batchSize` due rows, taking over expired leases, and returns them by id.
     Refused, with nothing changed, only when the column or trigger limits on its arguments are broken.
     */
    method Lease(workerId: string, now: Time, leaseSeconds: Time, batchSize: int, locked: set<nat>)
        returns (r: Result<seq<LeasedDelivery>, OutboxError>, ghost ids: seq<nat>)
      requires Valid()
      modifies this`evaluations, this`outbox, this`events, this`ledger
      ensures Valid() && Rely(old(Tables()), Tables())
      ensures r == Err(ValueError) <==> workerId == "" || batchSize < 1
      ensures r.Err? ==> Tables() == old(Tables())
      ensures r.Err? ==> r == Err(ValueError) || (r == Err(DatabaseError) && (|workerId| > 200 || leaseSeconds <= 0.0))
      ensures r.Ok? ==>
                && IsBatch(old(outbox), Leasable(old(outbox), now, locked), batchSize, ids) && Distinct(ids)
                && (forall k | 0 <= k < |ids| :: ids[k] in old(outbox))
                && Tables() == old(Tables()).(outbox := LeaseAll(old(outbox), ids, workerId, now, leaseSeconds))
                && SortedById(r.value) && |r.value| == |ids|
                && (forall l | l in r.value :: l.outboxId in ids)
                && (forall l | l in r.value :: Faithful(Tables(), l) && Holds(Tables(), l))
                && OldestDue(old(outbox), now, locked, batchSize, ids)
                && (forall l | l in r.value ::
                      l.outboxId in old(outbox) && TermsOf(l, old(outbox)[l.outboxId], workerId, now + leaseSeconds))
    {
      hide RowInv, DbInv, Rely, Faithful, Eligible, LeasedRow, TermsOf, OldestDue;
      ids := [];
      RelyIsReflexive(Tables());
      if workerId == "" || batchSize < 1 {
        return Err(ValueError), [];
      }
      var saved := Tables();
      var selected := SelectDue(now, locked, batchSize);
      BatchIsOldestDue(outbox, now, locked, batchSize, selected);
      ids := selected;
      var leases: seq<LeasedDelivery> := [];
      var k := 0;
      while k < |selected|
        invariant 0 <= k <= |selected| && selected == ids && Valid()
        invariant BatchSoFar(saved, Tables(), ids[..k], leases, workerId, now, leaseSeconds)
        invariant IsBatch(saved.outbox, Leasable(saved.outbox, now, locked), batchSize, ids) && Distinct(ids)
      {
        var next := TakeNext(selected[..k], selected[k], workerId, now, leaseSeconds, leases, saved);
        if next.None? {
          Restore(saved);
          RelyIsReflexive(saved);
          return Err(DatabaseError), [];
        }
        assert ids[..k + 1] == ids[..k] + [ids[k]];
        leases := next.value;
        k := k + 1;
      }
      assert ids[..k] == ids;
      r := Ok(leases);
    }

    /** One more row of the batch, and its lease among the others. */
    method TakeNext(taken: seq<nat>, id: nat, workerId: string, now: Time, leaseSeconds: Time,
                    leases: seq<LeasedDelivery>, ghost saved: Db) returns (r: Option<seq<LeasedDelivery>>)
      requires Valid() && BatchSoFar(saved, Tables(), taken, leases, workerId, now, leaseSeconds)
      requires workerId != "" && id in saved.outbox && Eligible(saved.outbox[id], now) && Distinct(taken + [id])
      modifies this`evaluations, this`outbox, this`events, this`ledger
      ensures r.None? ==> |workerId| > 200 || leaseSeconds <= 0.0
      ensures r.Some? ==> Valid() && BatchSoFar(saved, Tables(), taken + [id], r.value, workerId, now, leaseSeconds)
    {
      hide RowInv, DbInv, Rely, Faithful, Eligible, LeasedRow, LeaseOf, TermsOf, LeaseAll, Distinct;
      ghost var before := Tables();
      LeaseAllStep(saved.outbox, taken, id, workerId, now, leaseSeconds);
      var lease := TakeRow(id, workerId, now, leaseSeconds);
      if lease.None? {
        return None;
      }
      LeasedRowFields(id, before.outbox[id], workerId, now, leaseSeconds);
      RelyIsTransitive(saved, before, Tables());
      assert (taken + [id])[|taken|] == id && forall m | 0 <= m < |taken| :: (taken + [id])[m] == taken[m];
      var all := InsertById(leases, lease.value);
      SameMembers(all, leases, lease.value);
      OneMoreLease(saved, before, Tables(), taken, leases, all, lease.value, workerId, now + leaseSeconds);
      r := Some(all);
    }

    // ----------------------------------------------------------- outcomes

    method AppendAttemptEvent(l: LeasedDelivery, r: Report) returns (error: Option<OutboxError>)
      modifies this`evaluations, this`outbox, this`events, this`ledger
      ensures var w := InsertEvent(l.outboxId, l.attemptNumber, Evidence(l, r));
              && (error == Some(LeaseLost) <==> !Holds(old(Tables()), l))
              && (error == None ==> Accepts(old(Tables()), w) && Tables() == Commit(old(Tables()), w))
              && (error != None ==> Tables() == old(Tables()))
              && (error == Some(DatabaseError) <==> Holds(old(Tables()), l) && !Accepts(old(Tables()), w))
              && (error.Some? ==> error.value in {LeaseLost, DatabaseError})
    {
      if !Holds(Tables(), l) {
        return Some(LeaseLost);
      }
      var accepted := Execute(InsertEvent(l.outboxId, l.attemptNumber, Evidence(l, r)));
      error := if accepted then None else Some(DatabaseError);
    }

    /** INSERT ... ON CONFLICT DO NOTHING, then UPDATE ... WHERE status = 'CLAIMED'. */
    method WriteTerminalLedger(l: LeasedDelivery, status: LedgerStatus, r: Report) returns (error: Option<OutboxError>)
      modifies this`evaluations, this`outbox, this`events, this`ledger
      ensures var d := Transact(old(Tables()), LedgerWrites(old(Tables()), l, status, r));
              && (error == None <==> d.Some?)
              && (error == None ==> Tables() == d.value)
              && (error.Some? ==> error == Some(DatabaseError))
    {
      var key := KeyOf(l.intent);
      ghost var ws := LedgerWrites(Tables(), l, status, r);
      ghost var rest := ws[1..];
      var entry := LedgerEntry(LedgerAt(Tables(), key), l, status, r);
      var accepted := Execute(InsertLedger(key, FreshClaim(l, r.completedAt)));
      if !accepted {
        return Some(DatabaseError);
      }
      ghost var middle := Tables();
      if ledger[key].status == CLAIMED {
        accepted := Execute(UpdateLedger(key, entry));
        assert rest == [UpdateLedger(key, entry)];
        TransactOne(middle, rest[0]);
        error := if accepted then None else Some(DatabaseError);
      } else {
        assert rest == [];
        error := None;
      }
    }

    /** Conditional on the lease still being held, like its UPDATE statement. */
    method Transition(l: LeasedDelivery, state: OutboxState, nextAttemptAt: Option<Time>, r: Report)
        returns (error: Option<OutboxError>)
      modifies this`evaluations, this`outbox, this`events, this`ledger
      ensures var db := old(Tables());
              if l.outboxId in db.outbox && InFlightFor(db.outbox[l.outboxId], l) then
                var row := db.outbox[l.outboxId];
                var due := if nextAttemptAt.Some? then nextAttemptAt.value else row.nextAttemptAt;
                var w := UpdateRow(l.outboxId, SettledRow(row, state, due, r));
                error == (if Accepts(db, w) then None else Some(DatabaseError)) && Tables() == Submit(db, w)
              else error == Some(LeaseLost) && Tables() == db
    {
      if l.outboxId !in outbox || !InFlightFor(outbox[l.outboxId], l) {
        return Some(LeaseLost);
      }
      var row := outbox[l.outboxId];
      var due := if nextAttemptAt.Some? then nextAttemptAt.value else row.nextAttemptAt;
      var accepted := Execute(UpdateRow(l.outboxId, SettledRow(row, state, due, r)));
      error := if accepted then None else Some(DatabaseError);
    }

    /** The outcome transaction that all three record methods share: evidence, ledger if terminal, row. */
    method RecordOutcome(l: LeasedDelivery, state: OutboxState, nextAttemptAt: Option<Time>, r: Report)
        returns (error: Option<OutboxError>)
      requires Valid() && Faithful(Tables(), l)
      requires state == PENDING ==> nextAttemptAt.Some?
      requires Terminal(state) ==> nextAttemptAt == None
      requires state != IN_FLIGHT && (state == DELIVERED <==> r.outcome == ATTEMPT_DELIVERED)
      requires state == DELIVERED ==> EvidenceCheck(r.outcome, r.httpStatus, r.errorClass)
      modifies this
      ensures Valid() && Rely(old(Tables()), Tables())
      ensures error == Some(LeaseLost) <==> !Holds(old(Tables()), l)
      ensures error == None <==> Holds(old(Tables()), l) && Admissible(l, state, r)
      ensures error == None ==>
                var due := if nextAttemptAt.Some? then nextAttemptAt.value else old(outbox)[l.outboxId].nextAttemptAt;
                Tables() == Settle(old(Tables()), l, state, due, r)
      ensures error != None ==> Tables() == old(Tables())
      ensures error.Some? ==> error.value in {LeaseLost, DatabaseError}
      ensures recorded == old(recorded) + if error == None then [Recorded(l, state, nextAttemptAt, r)] else []
    {
      hide RowInv, DbInv, Rely, Admissible;
      var saved := Tables();
      RelyIsReflexive(saved);
      error := AppendAttemptEvent(l, r);
      ghost var middle := Tables();
      if error == None && Terminal(state) {
        error := WriteTerminalLedger(l, StatusFor(state), r);
      }
      ghost var settled := Tables();
      if error == None {
        error := Transition(l, state, nextAttemptAt, r);
      }
      if Holds(saved, l) {
        ghost var due := if nextAttemptAt.Some? then nextAttemptAt.value else saved.outbox[l.outboxId].nextAttemptAt;
        OutcomeByStages(saved, l, state, due, r);
        OutcomeVerdict(saved, l, state, due, r);
      }
      if error != None {
        Restore(saved);
      } else {
        recorded := recorded + [Recorded(l, state, nextAttemptAt, r)];
      }
    }

    method RecordDelivered(l: LeasedDelivery, httpStatus: int, startedAt: Time, completedAt: Time)
        returns (error: Option<OutboxError>)
      requires Valid() && Faithful(Tables(), l)
      modifies this
      ensures Valid() && Rely(old(Tables()), Tables())
      ensures match OutboxOperations.RecordDelivered(old(Tables()), l, httpStatus, startedAt, completedAt)
              case Ok(after) => error == None && Tables() == after
              case Err(e) => error == Some(e) && Tables() == old(Tables())
      ensures recorded == old(recorded)
                          + if error != None then []
                            else [Recorded(l, DELIVERED, None,
                                           Report(ATTEMPT_DELIVERED, Some(httpStatus), None, startedAt, completedAt))]
    {
      hide RowInv, DbInv, Rely;
      RelyIsReflexive(Tables());
      if !(200 <= httpStatus < 300) {
        return Some(ValueError);
      }
      DeliveredIsAdmissible(Tables(), l, httpStatus, startedAt, completedAt);
      error := RecordOutcome(l, DELIVERED, None, Report(ATTEMPT_DELIVERED, Some(httpStatus), None, startedAt, completedAt));
    }

    method RecordRetry(l: LeasedDelivery, r: Report, base: real) returns (error: Option<OutboxError>, nextAttemptAt: Time)
      requires Valid() && Faithful(Tables(), l)
      modifies this
      ensures Valid() && Rely(old(Tables()), Tables())
      ensures match OutboxOperations.RecordRetry(old(Tables()), l, r, base)
              case Ok(after) => error == None && Tables() == after && nextAttemptAt == after.outbox[l.outboxId].nextAttemptAt
              case Err(e) => error == Some(e) && Tables() == old(Tables())
      ensures error == None ==> nextAttemptAt == r.completedAt + Delay(l.attemptNumber, base, DEFAULT_CAP)
      ensures recorded == old(recorded) + if error == None then [Recorded(l, PENDING, Some(nextAttemptAt), r)] else []
    {
      hide RowInv, DbInv, Rely;
      RelyIsReflexive(Tables());
      nextAttemptAt := r.completedAt;
      if r.outcome !in {RETRYABLE_FAILURE, AMBIGUOUS} {
        return Some(ValueError), nextAttemptAt;
      }
      if l.IsFinalAttempt() {
        return Some(RetryBudgetExhausted), nextAttemptAt;
      }
      var delay := BackoffDelaySeconds(l.attemptNumber, base, DEFAULT_CAP);
      nextAttemptAt := r.completedAt + delay.value;
      error := RecordOutcome(l, PENDING, Some(nextAttemptAt), r);
    }

    method RecordDeadLetter(l: LeasedDelivery, r: Report) returns (error: Option<OutboxError>)
      requires Valid() && Faithful(Tables(), l)
      modifies this
      ensures Valid() && Rely(old(Tables()), Tables())
      ensures match OutboxOperations.RecordDeadLetter(old(Tables()), l, r)
              case Ok(after) => error == None && Tables() == after
              case Err(e) => error == Some(e) && Tables() == old(Tables())
      ensures recorded == old(recorded) + if error == None then [Recorded(l, DEAD_LETTER, None, r)] else []
    {
      hide RowInv, DbInv, Rely;
      RelyIsReflexive(Tables());
      if r.outcome == ATTEMPT_DELIVERED {
        return Some(ValueError);
      }
      error := RecordOutcome(l, DEAD_LETTER, None, r);
    }

    // ------------------------------------------------------------ redrive

    method Redrive(tenantId: string, id: nat, now: Time, additional: int) returns (error: Option<OutboxError>)
      requires Valid()
      modifies this`evaluations, this`outbox, this`events, this`ledger
      ensures Valid() && Rely(old(Tables()), Tables())
      ensures match OutboxOperations.Redrive(old(Tables()), tenantId, id, now, additional)
              case Ok(after) => error == None && Tables() == after
              case Err(e) => error == Some(e) && Tables() == old(Tables())
    {
      hide RowInv, DbInv, Rely;
      RelyIsReflexive(Tables());
      if additional < 1 {
        return Some(ValueError);
      }
      if id !in outbox || outbox[id].intent.tenantId != tenantId {
        return Some(NotFound);
      }
      var row := outbox[id];
      if row.state != DEAD_LETTER {
        return Some(NotDeadLettered);
      }
      var ceiling := NewCeiling(row, additional);
      if ceiling <= row.attemptCount {
        return Some(CeilingReached);
      }
      RedriveIsAccepted(Tables(), tenantId, id, now, additional);
      var accepted := Execute(UpdateRow(id, RedrivenRow(row, ceiling, now)));
      error := None;
    }
  }

  predicate SortedById(leases: seq<LeasedDelivery>) {
    forall k, m | 0 <= k < m < |leases| :: leases[k].outboxId < leases[m].outboxId
  }

  /** The leases taken for `ids` so far: one of each row, current in `db`, for the attempt after the saved one. */
  ghost predicate LeasesOf(saved: Db, db: Db, ids: seq<nat>, leases: seq<LeasedDelivery>, workerId: string, expiresAt: Time) {
    && |leases| == |ids| && SortedById(leases)
    && forall l | l in leases ::
         && l.outboxId in ids && Faithful(db, l) && Holds(db, l)
         && l.outboxId in saved.outbox && TermsOf(l, saved.outbox[l.outboxId], workerId, expiresAt)
  }

  /** The lease is for the next attempt of the row as it was, for this worker until then. */
  predicate TermsOf(l: LeasedDelivery, was: OutboxRow, workerId: string, expiresAt: Time) {
    && l.intent == was.intent && l.attemptNumber == was.attemptCount + 1 && l.maxAttempts == was.maxAttempts
    && l.leaseOwner == workerId && l.leaseExpiresAt == expiresAt
  }

  /** The transaction of a batch after the rows `ids`: they are leased, nothing else has changed. */
  ghost predicate BatchSoFar(saved: Db, db: Db, ids: seq<nat>, leases: seq<LeasedDelivery>,
                             workerId: string, now: Time, leaseSeconds: Time)
  {
    && (forall k | 0 <= k < |ids| :: ids[k] in saved.outbox)
    && db == saved.(outbox := LeaseAll(saved.outbox, ids, workerId, now, leaseSeconds))
    && Rely(saved, db) && LeasesOf(saved, db, ids, leases, workerId, now + leaseSeconds)
  }

  lemma LeasedRowFields(id: nat, row: OutboxRow, workerId: string, now: Time, leaseSeconds: Time)
    ensures var leased := LeasedRow(row, workerId, now, leaseSeconds);
            && leased.leaseOwner.Some? && leased.leaseExpiresAt.Some?
            && LeaseOf(id, leased).outboxId == id && TermsOf(LeaseOf(id, leased), row, workerId, now + leaseSeconds)
  {
  }

  lemma OneMoreLease(saved: Db, before: Db, after: Db, ids: seq<nat>, shorter: seq<LeasedDelivery>,
                     leases: seq<LeasedDelivery>, l: LeasedDelivery, workerId: string, expiresAt: Time)
    requires LeasesOf(saved, before, ids, shorter, workerId, expiresAt) && Rely(before, after)
    requires l.outboxId in saved.outbox && TermsOf(l, saved.outbox[l.outboxId], workerId, expiresAt)
    requires Faithful(after, l) && Holds(after, l)
    requires forall i | i in before.outbox && i != l.outboxId :: i in after.outbox && after.outbox[i] == before.outbox[i]
    requires forall x | x in shorter :: x.outboxId != l.outboxId
    requires SortedById(leases) && |leases| == |shorter| + 1 && forall x :: x in leases <==> x in shorter || x == l
    ensures LeasesOf(saved, after, ids + [l.outboxId], leases, workerId, expiresAt)
  {
    hide Rely, Faithful, TermsOf;
    forall x | x in shorter
      ensures Faithful(after, x)
    {
      RelyKeepsFaithful(before, after, x);
    }
  }

  lemma InsertedInOrder(leases: seq<LeasedDelivery>, k: nat, l: LeasedDelivery)
    requires SortedById(leases) && k <= |leases|
    requires forall m | 0 <= m < k :: leases[m].outboxId < l.outboxId
    requires k < |leases| ==> l.outboxId < leases[k].outboxId
    ensures SortedById(leases[..k] + [l] + leases[k..])
  {
  }

  lemma InsertedOnce(leases: seq<LeasedDelivery>, k: nat, l: LeasedDelivery)
    requires k <= |leases|
    ensures multiset(leases[..k] + [l] + leases[k..]) == multiset(leases) + multiset{l}
  {
    assert leases == leases[..k] + leases[k..];
  }

  /** The WHERE clause of `_transition`: weaker than the fence, which has already been checked. */
  predicate InFlightFor(row: OutboxRow, l: LeasedDelivery) {
    row.intent.tenantId == l.intent.tenantId && row.state == IN_FLIGHT && row.leaseOwner == Some(l.leaseOwner)
  }

  lemma SameMembers(r: seq<LeasedDelivery>, shorter: seq<LeasedDelivery>, l: LeasedDelivery)
    requires multiset(r) == multiset(shorter) + multiset{l}
    ensures |r| == |shorter| + 1
    ensures forall x :: x in r <==> x in shorter || x == l
  {
    assert |multiset(r)| == |r| && |multiset(shorter)| == |shorter|;
    forall x
      ensures x in r <==> x in shorter || x == l
    {
      assert x in r <==> x in multiset(r);
      assert x in shorter <==> x in multiset(shorter);
    }
  }

  lemma DeliveredIsAdmissible(db: Db, l: LeasedDelivery, httpStatus: int, startedAt: Time, completedAt: Time)
    requires DbInv(db) && Faithful(db, l) && 200 <= httpStatus < 300
    ensures Admissible(l, DELIVERED, Report(ATTEMPT_DELIVERED, Some(httpStatus), None, startedAt, completedAt))
  {
    FaithfulBounds(db, l);
    hide DbInv, Faithful;
  }

  lemma FaithfulBounds(db: Db, l: LeasedDelivery)
    requires DbInv(db) && Faithful(db, l)
    ensures 1 <= l.attemptNumber <= 100 && |l.intent.tenantId| > 0
    ensures 1 <= |l.leaseOwner| <= 200 && 1 <= |l.intent.idempotencyKey| <= 500
  {
    assert RowOk(db, l.outboxId);
    hide EvidenceInv, LedgerInv;
  }

  /** The outcome transaction, cut at its three statements. */
  lemma OutcomeByStages(db: Db, l: LeasedDelivery, state: OutboxState, due: Time, r: Report)
    requires Holds(db, l) && l.outboxId in db.outbox
    ensures var evidence := InsertEvent(l.outboxId, l.attemptNumber, Evidence(l, r));
            var last := UpdateRow(l.outboxId, SettledRow(db.outbox[l.outboxId], state, due, r));
            var all := Transact(db, OutcomeWrites(db, l, state, due, r));
            if !Accepts(db, evidence) then all == None
            else
              var db1 := Commit(db, evidence);
              var d := if Terminal(state) then Transact(db1, LedgerWrites(db1, l, StatusFor(state), r)) else Some(db1);
              && db1.outbox == db.outbox
              && (d.Some? ==> d.value.outbox == db.outbox)
              && all == if d.None? then None
                        else if Accepts(d.value, last) then Some(Commit(d.value, last)) else None
  {
    hide Accepts;
    var evidence := InsertEvent(l.outboxId, l.attemptNumber, Evidence(l, r));
    var last := UpdateRow(l.outboxId, SettledRow(db.outbox[l.outboxId], state, due, r));
    var ledgerWrites := if Terminal(state) then LedgerWrites(db, l, StatusFor(state), r) else [];
    TransactOne(db, evidence);
    TransactAppend(db, [evidence], ledgerWrites);
    TransactAppend(db, [evidence] + ledgerWrites, [last]);
    if Accepts(db, evidence) {
      var db1 := Commit(db, evidence);
      if Terminal(state) {
        assert ledgerWrites == LedgerWrites(db1, l, StatusFor(state), r);
        LedgerWritesTouchOnlyTheLedger(db1, l, StatusFor(state), r);
      }
      var d := Transact(db1, ledgerWrites);
      if d.Some? {
        TransactOne(d.value, last);
      }
    }
  }

  /** Accepted exactly when admissible. */
  lemma OutcomeVerdict(db: Db, l: LeasedDelivery, state: OutboxState, due: Time, r: Report)
    requires DbInv(db) && Faithful(db, l) && Holds(db, l)
    requires Terminal(state) ==> due == db.outbox[l.outboxId].nextAttemptAt
    requires state != IN_FLIGHT && (state == DELIVERED <==> r.outcome == ATTEMPT_DELIVERED)
    requires state == DELIVERED ==> EvidenceCheck(r.outcome, r.httpStatus, r.errorClass)
    ensures Transact(db, OutcomeWrites(db, l, state, due, r))
            == if Admissible(l, state, r) then Some(Settle(db, l, state, due, r)) else None
    ensures Admissible(l, state, r) ==> DbInv(Settle(db, l, state, due, r)) && Rely(db, Settle(db, l, state, due, r))
  {
    hide RowInv, DbInv, Rely;
    if Admissible(l, state, r) {
      OutcomeIsAccepted(db, l, state, due, r);
      SettleKeepsInv(db, l, state, due, r);
    } else {
      ActiveAttemptIsUnrecorded(db, l);
      if state == DELIVERED {
        DeliveredIsAdmissible(db, l, r.httpStatus.value, r.startedAt, r.completedAt);
      }
      OutcomeIsRefused(db, l, state, due, r);
    }
  }

  // ----------------------------------------------------------------- worker

  datatype WorkerRunResult = WorkerRunResult(leased: nat, delivered: nat, retried: nat, deadLettered: nat, leaseLost: nat)
  {
    function Merged(other: WorkerRunResult): WorkerRunResult {
      WorkerRunResult(leased + other.leased, delivered + other.delivered, retried + other.retried,
                      deadLettered + other.deadLettered, leaseLost + other.leaseLost)
    }

    function Settled(): nat {
      delivered + retried + deadLettered + leaseLost
    }
  }

  /** One POST and the clock readings around it. */
  datatype Exchange = Exchange(reply: Reply, startedAt: Time, completedAt: Time)

  class AlertOutboxWorker {
    const repository: AlertOutboxRepository
    const workerId: string
    const leaseSeconds: Time
    ghost var wire: seq<Posted>  // the requests sent, in order

    constructor (repository: AlertOutboxRepository, workerId: string, leaseSeconds: Time)
      requires workerId != ""
      ensures this.repository == repository && this.workerId == workerId && this.leaseSeconds == leaseSeconds
    {
      this.repository, this.workerId, this.leaseSeconds := repository, workerId, leaseSeconds;
      wire := [];
    }

    /**
     Leases a batch, then sends and records item by item while other transactions come and go. Each lease of the
     batch is sent once and settled once, in order: under its own answer, or as lost to others; none is left held.
     */
    method RunOnce(now: Time, batchSize: int, locked: set<nat>, exchanges: nat -> Exchange)
        returns (r: Result<WorkerRunResult, OutboxError>, ghost batch: seq<LeasedDelivery>, ghost ids: seq<nat>, ghost lost: seq<bool>)
      requires repository.Valid()
      requires forall k :: ValidReply(exchanges(k).reply)
      modifies this`wire, repository
      ensures repository.Valid() && Rely(old(repository.Tables()), repository.Tables())
      ensures r.Ok? ==> workerId != "" && r.value.leased == r.value.Settled() <= batchSize
      ensures r.Ok? ==>
                && OldestDue(old(repository.outbox), now, locked, batchSize, ids)
                && |batch| == |ids| && SortedById(batch)
                && (forall l | l in batch ::
                      && l.outboxId in ids && l.outboxId in old(repository.outbox)
                      && TermsOf(l, old(repository.outbox)[l.outboxId], workerId, now + leaseSeconds))
      ensures r.Ok? ==>
                && |lost| == |batch| && r.value == Totals(batch, exchanges, lost).(leased := |batch|)
                && repository.recorded == old(repository.recorded) + OutcomesOf(batch, exchanges, lost)
                && wire == old(wire) + PostsOf(batch)
                && (forall k | 0 <= k < |batch| :: SettledFor(repository.Tables(), batch[k], exchanges(k), lost[k]))
      ensures r.Err? ==>
                && repository.Tables() == old(repository.Tables())
                && repository.recorded == old(repository.recorded) && wire == old(wire)
                && (workerId == "" || batchSize < 1 || |workerId| > 200 || leaseSeconds <= 0.0)
    {
      hide RowInv, DbInv, Rely, Faithful, SettledFor, TermsOf, OldestDue, Totals, OutcomesOf, PostsOf;
      ghost var start := repository.Tables();
      batch, lost := [], [];
      var leased;
      leased, ids := repository.Lease(workerId, now, leaseSeconds, batchSize, locked);
      if leased.Err? {
        return Err(leased.error), batch, ids, lost;
      }
      batch := leased.value;
      ghost var begun := repository.Tables();
      var result;
      result, lost := SettleAll(leased.value, exchanges);
      RelyIsTransitive(start, begun, repository.Tables());
      r := Ok(result);
    }

    /** The loop over the leases of a batch. */
    method SettleAll(items: seq<LeasedDelivery>, exchanges: nat -> Exchange) returns (result: WorkerRunResult, ghost lost: seq<bool>)
      requires repository.Valid() && forall l | l in items :: Faithful(repository.Tables(), l)
      requires forall k :: ValidReply(exchanges(k).reply)
      modifies this`wire, repository
      ensures repository.Valid() && Rely(old(repository.Tables()), repository.Tables())
      ensures |lost| == |items| && result == Totals(items, exchanges, lost).(leased := |items|)
      ensures result.Settled() == |items|
      ensures repository.recorded == old(repository.recorded) + OutcomesOf(items, exchanges, lost)
      ensures wire == old(wire) + PostsOf(items)
      ensures forall k | 0 <= k < |items| :: SettledFor(repository.Tables(), items[k], exchanges(k), lost[k])
    {
      hide RowInv, DbInv, Rely, Faithful, SettledFor, Totals, OutcomesOf, PostsOf, CounterFor, OutcomeFor;
      ghost var start := repository.Tables();
      RelyIsReflexive(start);
      result, lost := WorkerRunResult(|items|, 0, 0, 0, 0), [];
      NoItems(items[..0], exchanges, lost);
      var k := 0;
      while k < |items|
        invariant 0 <= k <= |items| && |lost| == k
        invariant repository.Valid() && Rely(start, repository.Tables())
        invariant forall l | l in items :: Faithful(repository.Tables(), l)
        invariant result == Totals(items[..k], exchanges, lost).(leased := |items|) && result.Settled() == k
        invariant repository.recorded == old(repository.recorded) + OutcomesOf(items[..k], exchanges, lost)
        invariant wire == old(wire) + PostsOf(items[..k])
        invariant forall m | 0 <= m < k :: SettledFor(repository.Tables(), items[m], exchanges(m), lost[m])
      {
        ghost var before := repository.Tables();
        var one := Process(items[k], exchanges(k));
        RelyIsTransitive(start, before, repository.Tables());
        AllStay(before, repository.Tables(), items, k, exchanges, lost);
        OneMoreItem(items, k, exchanges, lost, one.leaseLost == 1);
        result := result.Merged(one);
        lost := lost + [one.leaseLost == 1];
        k := k + 1;
      }
      assert items[..k] == items;
    }

    /** The POST itself: what goes out is the intent's own payload under its own key. */
    method Post(l: LeasedDelivery, x: Exchange) returns (reply: Reply)
      modifies this`wire
      ensures reply == x.reply && wire == old(wire) + [Posted(l.outboxId, l.intent.idempotencyKey, l.intent.payload)]
    {
      wire := wire + [Posted(l.outboxId, l.intent.idempotencyKey, l.intent.payload)];
      reply := x.reply;
    }

    /**
     One POST, and then one counter moves: the outcome that the answer calls for is recorded, or the lease turns out
     to be lost and nothing is; nothing else raises.
     */
    method Process(l: LeasedDelivery, x: Exchange) returns (one: WorkerRunResult)
      requires repository.Valid() && Faithful(repository.Tables(), l) && ValidReply(x.reply)
      modifies this`wire, repository
      ensures repository.Valid() && Rely(old(repository.Tables()), repository.Tables())
      ensures one.leased == 0 && one.Settled() == 1
      ensures one == CounterFor(l, x, one.leaseLost == 1)
      ensures repository.recorded == old(repository.recorded) + if one.leaseLost == 1 then [] else [OutcomeFor(l, x)]
      ensures wire == old(wire) + [Posted(l.outboxId, l.intent.idempotencyKey, l.intent.payload)]
      ensures SettledFor(repository.Tables(), l, x, one.leaseLost == 1)
      ensures one.leaseLost == 0 ==>
                && l.outboxId in repository.outbox
                && l.attemptNumber in EventsOf(repository.Tables(), l.outboxId)
                && repository.outbox[l.outboxId].attemptCount == l.attemptNumber
                && repository.outbox[l.outboxId].state
                   == (if one.delivered == 1 then DELIVERED else if one.retried == 1 then PENDING else DEAD_LETTER)
                && (one.retried == 1 ==>
                      repository.outbox[l.outboxId].nextAttemptAt == x.completedAt + DefaultDelay(l.attemptNumber))
                && (one.delivered == 1 <==> x.reply.Status? && 200 <= x.reply.code < 300)
    {
      hide RowInv, DbInv, Rely, Faithful, SettledFor, AnsweredTables, OutcomeFor, CounterFor;
      ghost var start := repository.Tables();
      var reply := Post(l, x);
      repository.OtherTransactions();  // no transaction is open across the POST
      ghost var middle := repository.Tables();
      RelyKeepsFaithful(start, middle, l);
      one := RecordAnswer(l, x, Classify(reply));
      AnswerSettles(middle, l, x);
      CountersTell(l, x);
      RelyIsTransitive(start, middle, repository.Tables());
    }

    /** The record call that the decision leads to. */
    method RecordAnswer(l: LeasedDelivery, x: Exchange, d: Decision) returns (one: WorkerRunResult)
      requires repository.Valid() && Faithful(repository.Tables(), l) && ValidReply(x.reply) && d == Classify(x.reply)
      modifies repository
      ensures repository.Valid() && Rely(old(repository.Tables()), repository.Tables())
      ensures if Holds(old(repository.Tables()), l)
              then && one == CounterFor(l, x, false)
                   && repository.recorded == old(repository.recorded) + [OutcomeFor(l, x)]
                   && repository.Tables() == AnsweredTables(old(repository.Tables()), l, x)
              else && one == CounterFor(l, x, true)
                   && repository.recorded == old(repository.recorded) && repository.Tables() == old(repository.Tables())
    {
      hide RowInv, DbInv, Rely, Faithful, Classify, ReportOf, AnsweredTables, OutcomeFor, EvidenceOf, Delay, DefaultDelay,
           OutboxOperations.RecordDelivered, OutboxOperations.RecordRetry, OutboxOperations.RecordDeadLetter, Holds;
      FaithfulBounds(repository.Tables(), l);
      AnswerIs(repository.Tables(), l, x);
      RecordedIs(l, x);
      DecisionsAreWellFormed(x.reply);
      var error: Option<OutboxError>;
      one := WorkerRunResult(0, 0, 0, 0, 0);
      if d.outcome == ATTEMPT_DELIVERED {
        error := repository.RecordDelivered(l, d.httpStatus.value, x.startedAt, x.completedAt);
        one := one.(delivered := 1);
      } else {
        var report := ReportOf(d, x.startedAt, x.completedAt);
        if d.retryable && !l.IsFinalAttempt() {
          var next: Time;
          error, next := repository.RecordRetry(l, report, DEFAULT_BASE);
          one := one.(retried := 1);
        } else {
          error := repository.RecordDeadLetter(l, report);
          one := one.(deadLettered := 1);
        }
      }
      if error == Some(LeaseLost) {
        one := WorkerRunResult(0, 0, 0, 0, 1);
      }
    }
  }

  // ------------------------------------------------- what a worker is to do

  /** The request that went out for a lease. */
  datatype Posted = Posted(outboxId: nat, idempotencyKey: string, payload: WebhookPayload)

  /** The outcome that the answer to a lease calls for. */
  function OutcomeFor(l: LeasedDelivery, x: Exchange): Recorded {
    var state := Verdict(x.reply, l.attemptNumber, l.maxAttempts);
    Recorded(l, state, if state == PENDING then Some(x.completedAt + DefaultDelay(l.attemptNumber)) else None,
             EvidenceOf(x.reply, x.startedAt, x.completedAt))
  }

  function CounterFor(l: LeasedDelivery, x: Exchange, isLost: bool): WorkerRunResult {
    if isLost then WorkerRunResult(0, 0, 0, 0, 1)
    else match Verdict(x.reply, l.attemptNumber, l.maxAttempts)
      case DELIVERED => WorkerRunResult(0, 1, 0, 0, 0)
      case PENDING => WorkerRunResult(0, 0, 1, 0, 0)
      case _ => WorkerRunResult(0, 0, 0, 1, 0)
  }

  /** The lease is over, and unless it was lost its attempt has the evidence of its own answer. */
  ghost predicate SettledFor(db: Db, l: LeasedDelivery, x: Exchange, isLost: bool) {
    && Faithful(db, l) && !Holds(db, l)
    && (!isLost ==>
          EventAt(db, l.outboxId, l.attemptNumber) == Some(Evidence(l, EvidenceOf(x.reply, x.startedAt, x.completedAt))))
  }

  function Totals(batch: seq<LeasedDelivery>, exchanges: nat -> Exchange, lost: seq<bool>): WorkerRunResult
    requires |lost| == |batch|
  {
    if batch == [] then WorkerRunResult(0, 0, 0, 0, 0)
    else
      var k := |batch| - 1;
      Totals(batch[..k], exchanges, lost[..k]).Merged(CounterFor(batch[k], exchanges(k), lost[k]))
  }

  function OutcomesOf(batch: seq<LeasedDelivery>, exchanges: nat -> Exchange, lost: seq<bool>): seq<Recorded>
    requires |lost| == |batch|
  {
    if batch == [] then []
    else
      var k := |batch| - 1;
      OutcomesOf(batch[..k], exchanges, lost[..k]) + if lost[k] then [] else [OutcomeFor(batch[k], exchanges(k))]
  }

  function PostsOf(batch: seq<LeasedDelivery>): seq<Posted> {
    if batch == [] then []
    else
      var l := batch[|batch| - 1];
      PostsOf(batch[..|batch| - 1]) + [Posted(l.outboxId, l.intent.idempotencyKey, l.intent.payload)]
  }

  lemma OneMoreItem(items: seq<LeasedDelivery>, k: nat, exchanges: nat -> Exchange, lost: seq<bool>, isLost: bool)
    requires k < |items| && |lost| == k
    ensures var l, x := items[k], exchanges(k);
            && Totals(items[..k + 1], exchanges, lost + [isLost]) == Totals(items[..k], exchanges, lost).Merged(CounterFor(l, x, isLost))
            && OutcomesOf(items[..k + 1], exchanges, lost + [isLost])
               == OutcomesOf(items[..k], exchanges, lost) + (if isLost then [] else [OutcomeFor(l, x)])
            && PostsOf(items[..k + 1])
               == PostsOf(items[..k]) + [Posted(l.outboxId, l.intent.idempotencyKey, l.intent.payload)]
  {
    hide CounterFor, OutcomeFor;
    var more := lost + [isLost];
    assert items[..k + 1][..k] == items[..k] && more[..k] == lost;
  }

  lemma NoItems(items: seq<LeasedDelivery>, exchanges: nat -> Exchange, lost: seq<bool>)
    requires items == [] && lost == []
    ensures Totals(items, exchanges, lost) == WorkerRunResult(0, 0, 0, 0, 0)
    ensures OutcomesOf(items, exchanges, lost) == [] && PostsOf(items) == []
  {
  }

  lemma AllStay(a: Db, b: Db, items: seq<LeasedDelivery>, k: nat, exchanges: nat -> Exchange, lost: seq<bool>)
    requires k <= |items| && |lost| == k && Rely(a, b) && forall l | l in items :: Faithful(a, l)
    requires forall m | 0 <= m < k :: SettledFor(a, items[m], exchanges(m), lost[m])
    ensures forall l | l in items :: Faithful(b, l)
    ensures forall m | 0 <= m < k :: SettledFor(b, items[m], exchanges(m), lost[m])
  {
    hide Rely, Faithful, SettledFor;
    forall l | l in items
      ensures Faithful(b, l)
    {
      RelyKeepsFaithful(a, b, l);
    }
    forall m | 0 <= m < k
      ensures SettledFor(b, items[m], exchanges(m), lost[m])
    {
      SettledStays(a, b, items[m], exchanges(m), lost[m]);
    }
  }

  /** What is settled stays settled, whatever others do. */
  lemma SettledStays(a: Db, b: Db, l: LeasedDelivery, x: Exchange, isLost: bool)
    requires SettledFor(a, l, x, isLost) && Rely(a, b)
    ensures SettledFor(b, l, x, isLost)
  {
    RelyKeepsFaithful(a, b, l);
    assert RowMoves(a.outbox[l.outboxId], b.outbox[l.outboxId]);
    hide EvidenceOf;
  }

  /** The tables after the outcome of a held lease. */
  function AnsweredTables(db: Db, l: LeasedDelivery, x: Exchange): Db
    requires Holds(db, l)
  {
    var o := OutcomeFor(l, x);
    Settle(db, l, o.state, if o.due.Some? then o.due.value else db.outbox[l.outboxId].nextAttemptAt, o.report)
  }

  lemma AnswerIs(db: Db, l: LeasedDelivery, x: Exchange)
    requires DbInv(db) && Faithful(db, l) && ValidReply(x.reply) && l.attemptNumber >= 1
    ensures RecordDecision(db, l, Classify(x.reply), x.startedAt, x.completedAt, DEFAULT_BASE)
            == if Holds(db, l) then Ok(AnsweredTables(db, l, x)) else Err(LeaseLost)
  {
    hide DbInv, Faithful, Classify, ReportOf, EvidenceOf, Settle, Delay, DefaultDelay, RecordDecision, NextState, Verdict;
    S.RecordSettlesOrLoses(db, l, x.reply, x.startedAt, x.completedAt, DEFAULT_BASE);
    DecisionIsByTheBook(l, x.reply, x.startedAt, x.completedAt);
    DefaultDelays(l.attemptNumber);
  }

  /** How each of the three record calls names the same outcome. */
  lemma RecordedIs(l: LeasedDelivery, x: Exchange)
    requires ValidReply(x.reply) && l.attemptNumber >= 1
    ensures var d, o := Classify(x.reply), OutcomeFor(l, x);
            && o.lease == l && o.state == NextState(l, d) && o.report == ReportOf(d, x.startedAt, x.completedAt)
            && o.state == Verdict(x.reply, l.attemptNumber, l.maxAttempts)
            && o.due == (if o.state == PENDING then Some(x.completedAt + Delay(l.attemptNumber, DEFAULT_BASE, DEFAULT_CAP)) else None)
            && o.report.completedAt == x.completedAt
            && (d.outcome == ATTEMPT_DELIVERED ==>
                  d.httpStatus.Some? && 200 <= d.httpStatus.value < 300
                  && o.report == Report(ATTEMPT_DELIVERED, d.httpStatus, None, x.startedAt, x.completedAt))
  {
    DecisionIsByTheBook(l, x.reply, x.startedAt, x.completedAt);
    DefaultDelays(l.attemptNumber);
    hide Delay, DefaultDelay, Verdict, NextState;
  }

  /** The row of a settled lease stands where the answer took it, with its evidence. */
  lemma AnswerSettles(db: Db, l: LeasedDelivery, x: Exchange)
    requires Faithful(db, l)
    ensures if Holds(db, l) then
              var after := AnsweredTables(db, l, x);
              && l.outboxId in after.outbox && l.attemptNumber in EventsOf(after, l.outboxId)
              && after.outbox[l.outboxId].attemptCount == l.attemptNumber
              && after.outbox[l.outboxId].state == Verdict(x.reply, l.attemptNumber, l.maxAttempts)
              && (after.outbox[l.outboxId].state == PENDING ==>
                    after.outbox[l.outboxId].nextAttemptAt == x.completedAt + DefaultDelay(l.attemptNumber))
              && SettledFor(after, l, x, false)
            else SettledFor(db, l, x, true)
  {
    hide EvidenceOf, DefaultDelay, LedgerEntry;
  }

  lemma CountersTell(l: LeasedDelivery, x: Exchange)
    ensures CounterFor(l, x, true) == WorkerRunResult(0, 0, 0, 0, 1)
    ensures var one := CounterFor(l, x, false);
            && one.leased == 0 && one.leaseLost == 0 && one.Settled() == 1
            && Verdict(x.reply, l.attemptNumber, l.maxAttempts)
               == (if one.delivered == 1 then DELIVERED else if one.retried == 1 then PENDING else DEAD_LETTER)
            && (one.delivered == 1 <==> x.reply.Status? && 200 <= x.reply.code < 300)
  {
  }
}
