/** `AlertRepository.record`: the evaluation and its delivery intent commit together or not at all. */
module AlertRepository {
  import opened Wrappers
  import opened Identity
  import opened OutboxTables
  import opened OutboxGuards
  import opened OutboxInvariant
  import opened OutboxOperations
  import opened OutboxRepository
  import H = AlertHistory

  function OptionalField(t: Option<string>): seq<string> {
    if t.Some? then ["some", t.value] else ["null"]
  }

  /** `alert_fingerprint`: the digest leaves out the window and the input values. */
  function FingerprintDigest(f: H.Fingerprint): Hash {
    Sha256([f.policyId, f.policyVersion, f.tenantId] + OptionalField(f.runId) + OptionalField(f.caseId))
  }

  function EvaluationOf(e: H.AlertEvent): Evaluation {
    Evaluation(e.fingerprint.tenantId, FingerprintDigest(e.fingerprint), e.transition)
  }

  /** `webhook_payload`. */
  function WebhookPayloadOf(e: H.AlertEvent, evaluationId: nat): WebhookPayload {
    var f := e.fingerprint;
    WebhookPayload(evaluationId, FingerprintDigest(f), f.policyId, f.policyVersion, f.tenantId, f.runId, f.caseId,
                   e.transition, e.state, e.previousState, e.assessment, e.payloadHash, e.idempotencyKey, e.evaluatedAt)
  }

  function IntentFor(e: H.AlertEvent, evaluationId: nat, host: string): Intent {
    var payload := WebhookPayloadOf(e, evaluationId);
    Intent(e.fingerprint.tenantId, evaluationId, FingerprintDigest(e.fingerprint), e.transition, host, payload,
           PayloadHash(payload), DeliveryIdempotencyKey(e.fingerprint.tenantId, evaluationId, e.transition), e.evaluatedAt)
  }

  /** The intent is for this evaluation: sent to `host` under the evaluation's delivery key, telling it as it is. */
  ghost predicate TellsOf(i: Intent, e: H.AlertEvent, evaluationId: nat, host: string) {
    var f, p := e.fingerprint, i.payload;
    && i.evaluationId == evaluationId && i.tenantId == f.tenantId && i.transition == e.transition
    && i.destinationHost == host && i.enqueuedAt == e.evaluatedAt && i.payloadHash == PayloadHash(p)
    && i.idempotencyKey
       == f.tenantId + ":" + Digits(evaluationId) + (if e.transition == FIRED then ":FIRED" else ":RESOLVED")
    && p.evaluationId == evaluationId && p.fingerprint == i.fingerprint && p.tenantId == f.tenantId
    && p.policyId == f.policyId && p.policyVersion == f.policyVersion && p.runId == f.runId && p.caseId == f.caseId
    && p.transition == e.transition && p.state == e.state && p.previousState == e.previousState
    && p.assessment == e.assessment && p.payloadHash == e.payloadHash
    && p.idempotencyKey == e.idempotencyKey && p.evaluatedAt == e.evaluatedAt
  }

  lemma IntentTells(e: H.AlertEvent, evaluationId: nat, host: string)
    requires H.Lifecycle(e.transition)
    ensures TellsOf(IntentFor(e, evaluationId, host), e, evaluationId, host)
  {
    hide FingerprintDigest, Digits;
    KeySpelling(e.fingerprint.tenantId, evaluationId);
    hide DeliveryIdempotencyKey;
  }

  /** Two evaluations have one fingerprint exactly if policy, version, tenant and correlation agree. */
  lemma FingerprintIsInjective(f: H.Fingerprint, g: H.Fingerprint)
    ensures FingerprintDigest(f) == FingerprintDigest(g) <==> f == g
  {
    var a, b := FingerprintDigest(f).fields, FingerprintDigest(g).fields;
    if a == b {
      assert a[0] == f.policyId && a[1] == f.policyVersion && a[2] == f.tenantId;
      assert b[0] == g.policyId && b[1] == g.policyVersion && b[2] == g.tenantId;
      OptionsSplit(f.runId, f.caseId, g.runId, g.caseId, [f.policyId, f.policyVersion, f.tenantId]);
    }
  }

  lemma OptionsSplit(r: Option<string>, c: Option<string>, s: Option<string>, d: Option<string>, head: seq<string>)
    requires head + OptionalField(r) + OptionalField(c) == head + OptionalField(s) + OptionalField(d)
    ensures r == s && c == d
  {
    var a, b := head + OptionalField(r) + OptionalField(c), head + OptionalField(s) + OptionalField(d);
    var n := |head|;
    assert a[n] == OptionalField(r)[0] && b[n] == OptionalField(s)[0];
    assert "some"[0] != "null"[0];
    assert r.Some? ==> a[n + 1] == r.value && b[n + 1] == s.value;
    var k := n + |OptionalField(r)|;
    assert a[k] == OptionalField(c)[0] && b[k] == OptionalField(d)[0];
    assert c.Some? ==> a[k + 1] == c.value && b[k + 1] == d.value;
  }

  class AlertRepository {
    var rows: seq<H.AlertEvent>
    var nextOutboxId: nat
    const outboxes: AlertOutboxRepository
    const delivery: H.Delivery
    const destinationHost: string

    /** Evaluation ids are 1..|rows|, and each lifecycle evaluation has its one outbox row. */
    ghost predicate Valid()
      reads this, outboxes
    {
      && outboxes.Valid()
      && SameEvaluations(rows, outboxes.evaluations)
      && Linked(delivery, destinationHost, rows, outboxes.outbox)
      && (forall id | id in outboxes.outbox :: id < nextOutboxId)
      && 1 <= |destinationHost| <= 253
    }

    constructor (outboxes: AlertOutboxRepository, delivery: H.Delivery, destinationHost: string)
      requires outboxes.Valid() && outboxes.Tables() == EmptyDb
      requires 1 <= |destinationHost| <= 253
      ensures Valid() && rows == [] && fresh(this)
      ensures this.outboxes == outboxes && this.delivery == delivery && this.destinationHost == destinationHost
    {
      rows, nextOutboxId := [], 0;
      this.outboxes, this.delivery, this.destinationHost := outboxes, delivery, destinationHost;
    }

    /**
     One transaction under the fingerprint's advisory lock. The tenant length is the contract's, the row limit
     is the bigint id's.
     */
    method Record(r: H.Request) returns (error: Option<H.AlertError>)
      requires Valid() && 1 <= |r.tenantId| <= 100 && |rows| + 1 < 0x8000_0000_0000_0000
      modifies this, outboxes
      ensures Valid() && Rely(old(outboxes.Tables()), outboxes.Tables())
      ensures match H.Record(H.History(old(rows), []), delivery, r)
              case Ok(h) => error == None && rows == h.rows
              case Err(e) => error == Some(e) && rows == old(rows) && outboxes.Tables() == old(outboxes.Tables())
      ensures rows == old(rows) ==> outboxes.Tables() == old(outboxes.Tables())
      ensures rows != old(rows) ==>
                && |rows| == |old(rows)| + 1 && old(rows) <= rows
                && var e := rows[|rows| - 1];
                   && e.fingerprint == r.fingerprint && e.assessment == r.assessment && e.evaluatedAt == r.evaluatedAt
                   && e.idempotencyKey == r.idempotencyKey && e.payloadHash == Sha256([r.payload])
      ensures rows != old(rows) ==>
                var event := H.NewEvent(old(rows), r);
                var id := |old(rows)| + 1;
                var db := old(outboxes.Tables());
                if delivery.Enabled? && H.Lifecycle(event.transition) then
                  outboxes.Tables() == Evaluated(db, old(nextOutboxId), IntentFor(event, id, destinationHost),
                                                 delivery.maxAttempts)
                else outboxes.Tables() == db.(evaluations := db.evaluations[id := EvaluationOf(event)])
    {
      hide RowInv, DbInv, Rely, SameEvaluations, Linked, H.NextState, Evaluated, IntentFor, Accepts, Commit, TellsOf;
      ghost var db := outboxes.Tables();
      assert DbInv(db);
      RelyIsReflexive(db);
      if r.fingerprint.tenantId != r.tenantId {
        return Some(H.TenantNotFound);
      }
      if H.UsedKey(rows, r) {
        return if H.UsedBoth(rows, r) then None else Some(H.IdempotencyConflict);
      }
      if H.UsedPayload(rows, r) {
        return None;
      }
      var event := H.NewEvent(rows, r);
      var evaluationId := |rows| + 1;
      var saved := outboxes.Tables();
      var append := AppendEvaluation(evaluationId, EvaluationOf(event));
      AppendKeepsSame(rows, db.evaluations, event);
      AppendKeepsInv(db, evaluationId, EvaluationOf(event));
      AppendIsAccepted(db, evaluationId, event);
      var accepted := outboxes.Execute(append);
      if delivery.Enabled? && H.Lifecycle(event.transition) {
        var intent := IntentFor(event, evaluationId, destinationHost);
        var enqueued := outboxes.EnqueueInTransaction(nextOutboxId, intent, delivery.maxAttempts);
        if 1 <= delivery.maxAttempts <= 100 {
          IntentCommits(db, nextOutboxId, evaluationId, event, destinationHost, delivery.maxAttempts);
        } else {
          BudgetIsChecked(outboxes.Tables(), nextOutboxId, intent, delivery.maxAttempts);
        }
        if enqueued.Err? {
          outboxes.Restore(saved);
          assert outboxes.Tables() == db && DbInv(db);
          return Some(H.EnqueueRejected);
        }
        nextOutboxId := nextOutboxId + 1;
      }
      AppendKeepsLink(delivery, destinationHost, rows, event, db.outbox, outboxes.outbox, old(nextOutboxId));
      rows := rows + [event];
      error := None;
    }
  }

  ghost predicate SameEvaluations(rows: seq<H.AlertEvent>, evaluations: map<nat, Evaluation>) {
    && (forall e | e in evaluations :: 1 <= e <= |rows|)
    && (forall e: nat | 1 <= e <= |rows| :: e in evaluations && evaluations[e] == EvaluationOf(rows[e - 1]))
  }

  /** With delivery enabled the outbox rows are those of the lifecycle evaluations, and tell them; without it there are none. */
  ghost predicate Linked(d: H.Delivery, host: string, rows: seq<H.AlertEvent>, outbox: map<nat, OutboxRow>) {
    && (forall id | id in outbox :: LinkedRow(d, host, rows, outbox[id].intent))
    && (forall e: nat | Notifies(d, rows, e) :: exists id :: id in outbox && outbox[id].intent.evaluationId == e)
  }

  ghost predicate LinkedRow(d: H.Delivery, host: string, rows: seq<H.AlertEvent>, i: Intent) {
    Notifies(d, rows, i.evaluationId) && TellsOf(i, rows[i.evaluationId - 1], i.evaluationId, host)
  }

  predicate Notifies(d: H.Delivery, rows: seq<H.AlertEvent>, e: nat) {
    d.Enabled? && 1 <= e <= |rows| && H.Lifecycle(rows[e - 1].transition)
  }

  /** The outbox rows of one evaluation. */
  function RowsFor(outbox: map<nat, OutboxRow>, e: nat): set<nat> {
    set id | id in outbox && outbox[id].intent.evaluationId == e
  }

  lemma AppendKeepsLink(d: H.Delivery, host: string, rows: seq<H.AlertEvent>, event: H.AlertEvent,
                        a: map<nat, OutboxRow>, b: map<nat, OutboxRow>, id: nat)
    requires Linked(d, host, rows, a)
    requires if d.Enabled? && H.Lifecycle(event.transition)
             then && id !in a && id in b && b == a[id := b[id]]
                  && TellsOf(b[id].intent, event, |rows| + 1, host)
             else b == a
    ensures Linked(d, host, rows + [event], b)
  {
    hide LinkedRow, Notifies, TellsOf;
    var more := rows + [event];
    forall i | i in b
      ensures LinkedRow(d, host, more, b[i].intent)
    {
      if i in a {
        OldRowStaysLinked(d, host, rows, event, a[i].intent);
      } else {
        NewRowIsLinked(d, host, rows, event, b[i].intent);
      }
    }
    forall e: nat | Notifies(d, more, e)
      ensures exists i :: i in b && b[i].intent.evaluationId == e
    {
      OneMoreNotified(d, rows, event, e);
      if Notifies(d, rows, e) {
        var i :| i in a && a[i].intent.evaluationId == e;
        assert b[i].intent.evaluationId == e;
      } else {
        NewRowIsLinked(d, host, rows, event, b[id].intent);
      }
    }
  }

  lemma OldRowStaysLinked(d: H.Delivery, host: string, rows: seq<H.AlertEvent>, event: H.AlertEvent, i: Intent)
    requires LinkedRow(d, host, rows, i)
    ensures LinkedRow(d, host, rows + [event], i)
  {
    hide TellsOf;
    assert (rows + [event])[i.evaluationId - 1] == rows[i.evaluationId - 1];
  }

  lemma NewRowIsLinked(d: H.Delivery, host: string, rows: seq<H.AlertEvent>, event: H.AlertEvent, i: Intent)
    requires d.Enabled? && H.Lifecycle(event.transition) && TellsOf(i, event, |rows| + 1, host)
    ensures LinkedRow(d, host, rows + [event], i) && i.evaluationId == |rows| + 1
  {
    assert i.evaluationId == |rows| + 1 && (rows + [event])[|rows|] == event;
    hide TellsOf;
  }

  lemma OneMoreNotified(d: H.Delivery, rows: seq<H.AlertEvent>, event: H.AlertEvent, e: nat)
    requires Notifies(d, rows + [event], e)
    ensures Notifies(d, rows, e) || (e == |rows| + 1 && d.Enabled? && H.Lifecycle(event.transition))
  {
  }

  /** Whatever moves the rows on without adding any keeps the link. */
  lemma MovesKeepLink(d: H.Delivery, host: string, rows: seq<H.AlertEvent>, a: Db, b: Db)
    requires Linked(d, host, rows, a.outbox) && Rely(a, b) && b.outbox.Keys == a.outbox.Keys
    ensures Linked(d, host, rows, b.outbox)
  {
    hide LinkedRow;
    forall id | id in a.outbox
      ensures b.outbox[id].intent == a.outbox[id].intent
    {
      assert RowMoves(a.outbox[id], b.outbox[id]);
    }
    hide RowMoves;
    forall id | id in b.outbox
      ensures LinkedRow(d, host, rows, b.outbox[id].intent)
    {
      assert LinkedRow(d, host, rows, a.outbox[id].intent);
    }
    forall e: nat | Notifies(d, rows, e)
      ensures exists id :: id in b.outbox && b.outbox[id].intent.evaluationId == e
    {
      var id :| id in a.outbox && a.outbox[id].intent.evaluationId == e;
      assert b.outbox[id].intent.evaluationId == e;
    }
  }

  lemma OneRowPerEvaluation(db: Db, i: nat, j: nat)
    requires DbInv(db) && i in db.outbox && j in db.outbox
    requires db.outbox[i].intent.evaluationId == db.outbox[j].intent.evaluationId
    ensures i == j
  {
    assert RowOk(db, i) && RowOk(db, j);
  }

  /** Exactly one outbox row for each evaluation to be notified, and none for any other id. */
  lemma LinkCounts(d: H.Delivery, host: string, rows: seq<H.AlertEvent>, db: Db, e: nat)
    requires DbInv(db) && Linked(d, host, rows, db.outbox)
    ensures |RowsFor(db.outbox, e)| == if Notifies(d, rows, e) then 1 else 0
    ensures forall id | id in RowsFor(db.outbox, e) ::
              Notifies(d, rows, e) && TellsOf(db.outbox[id].intent, rows[e - 1], e, host)
  {
    hide DbInv, TellsOf;
    assert forall id | id in RowsFor(db.outbox, e) :: LinkedRow(d, host, rows, db.outbox[id].intent);
    if Notifies(d, rows, e) {
      var id :| id in db.outbox && db.outbox[id].intent.evaluationId == e;
      forall i | i in RowsFor(db.outbox, e)
        ensures i == id
      {
        OneRowPerEvaluation(db, i, id);
      }
      assert RowsFor(db.outbox, e) == {id};
    } else {
      assert RowsFor(db.outbox, e) == {};
    }
  }

  lemma AppendKeepsSame(rows: seq<H.AlertEvent>, evaluations: map<nat, Evaluation>, event: H.AlertEvent)
    requires SameEvaluations(rows, evaluations)
    ensures |rows| + 1 !in evaluations
    ensures SameEvaluations(rows + [event], evaluations[|rows| + 1 := EvaluationOf(event)])
  {
  }

  lemma AppendIsAccepted(db: Db, e: nat, event: H.AlertEvent)
    requires e !in db.evaluations && 1 <= |event.fingerprint.tenantId|
    ensures var append := AppendEvaluation(e, EvaluationOf(event));
            Accepts(db, append) && Commit(db, append) == db.(evaluations := db.evaluations[e := EvaluationOf(event)])
  {
    hide FingerprintDigest;
  }

  /** What `enqueue` refuses, whatever the tables. */
  lemma BudgetIsChecked(db: Db, id: nat, intent: Intent, maxAttempts: int)
    requires !(1 <= maxAttempts <= 100)
    ensures Enqueue(db, id, intent, maxAttempts).Err?
  {
  }

  lemma AppendKeepsInv(db: Db, e: nat, v: Evaluation)
    requires DbInv(db) && e !in db.evaluations
    ensures var after := db.(evaluations := db.evaluations[e := v]);
            DbInv(after) && Rely(db, after)
  {
    hide RowInv, RowOk;
    var after := db.(evaluations := db.evaluations[e := v]);
    forall id | id in after.outbox
      ensures RowOk(after, id)
    {
      assert RowOk(db, id);
      UntouchedRowStaysOk(db, after, id);
    }
    hide KeyOf;
    assert Rely(db, after) by {
      RelyIsReflexive(db);
    }
  }

  /** Both inserts of a lifecycle evaluation succeed, and together they are the evaluation transaction. */
  lemma IntentCommits(db: Db, id: nat, e: nat, event: H.AlertEvent, host: string, maxAttempts: int)
    requires DbInv(db) && id !in db.outbox && 1 <= maxAttempts <= 100 && H.Lifecycle(event.transition)
    requires e !in db.evaluations && e < 0x8000_0000_0000_0000
    requires 1 <= |event.fingerprint.tenantId| <= 100 && 1 <= |host| <= 253
    ensures var append := AppendEvaluation(e, EvaluationOf(event));
            var intent := IntentFor(event, e, host);
            var after := Evaluated(db, id, intent, maxAttempts);
            && Accepts(db, append)
            && Enqueue(Commit(db, append), id, intent, maxAttempts) == Ok(after)
            && DbInv(after) && Rely(db, after)
            && id in after.outbox && after.outbox == db.outbox[id := after.outbox[id]]
            && TellsOf(after.outbox[id].intent, event, e, host)
            && after.evaluations == db.evaluations[e := EvaluationOf(event)]
  {
    hide DbInv, Rely, Accepts, Commit, FingerprintDigest, DeliveryIdempotencyKey, TellsOf;
    IntentTells(event, e, host);
    var intent := IntentFor(event, e, host);
    EvaluationIsAccepted(db, id, intent, maxAttempts);
    EvaluationStages(db, id, intent, maxAttempts);
    EvaluatedKeepsInv(db, id, intent, maxAttempts);
  }

  lemma EvaluationStages(db: Db, id: nat, intent: Intent, maxAttempts: int)
    requires Transact(db, EvaluationWrites(id, intent, maxAttempts)).Some?
    ensures var ws := EvaluationWrites(id, intent, maxAttempts);
            && Accepts(db, ws[0]) && Accepts(Commit(db, ws[0]), ws[1])
            && Transact(db, ws) == Some(Commit(Commit(db, ws[0]), ws[1]))
  {
    hide Accepts, Commit;
    var ws := EvaluationWrites(id, intent, maxAttempts);
    assert ws[1..] == [ws[1]];
    TransactOne(Commit(db, ws[0]), ws[1]);
  }
}
