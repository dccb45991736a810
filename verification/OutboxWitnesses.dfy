/** Runs in which the outbox does what its description rules out, one for each property that holds only conditionally. */
module OutboxWitnesses {
  import opened Wrappers
  import opened Identity
  import opened OutboxTables
  import opened OutboxGuards
  import opened OutboxOperations
  import opened OutboxInvariant
  import opened Delivery
  import opened OutboxSystem
  import opened OutboxHistory
  import opened OutboxProgress
  import opened Backoff

  const SAMPLE_PAYLOAD := WebhookPayload(1, Sha256(["policy"]), "latency", "v1", "t_alpha", None, None, FIRED, Some(FIRING),
                                         None, Measured(true), Sha256(["window"]), "key", 0.0)

  const SAMPLE := Intent("t_alpha", 1, Sha256(["policy"]), FIRED, "hooks.example", SAMPLE_PAYLOAD, PayloadHash(SAMPLE_PAYLOAD),
                         DeliveryIdempotencyKey("t_alpha", 1, FIRED), 0.0)

  const TICKET := Ticket(0, 1)

  /** The worker of the only budgeted attempt dies: the intent is neither delivered nor dead-lettered, ever. */
  lemma CrashStrandsTheFinalAttempt(more: seq<Step>) returns (run: seq<Step>)
    ensures run == [Evaluate(0, SAMPLE, 1), LeaseRow(0, "w", 0.0, 1.0), Crash(TICKET)]
    ensures 0 in After(run).db.outbox && OnFinalAttempt(After(run).db.outbox[0]) && !LeaseAlive(After(run), 0)
    ensures 0 in After(run + more).db.outbox && After(run + more).db.outbox[0].state == IN_FLIGHT
  {
    run := [Evaluate(0, SAMPLE, 1)] + [LeaseRow(0, "w", 0.0, 1.0)] + [Crash(TICKET)];
    LeasedOnce(1);
    AfterAppend([Evaluate(0, SAMPLE, 1)] + [LeaseRow(0, "w", 0.0, 1.0)], Crash(TICKET));
    FrozenForever(run, more, 0);
  }

  function LeasedState(budget: int): System {
    var row := LeasedRow(NewRow(SAMPLE, budget), "w", 0.0, 1.0);
    System(Db(map[1 := Evaluation("t_alpha", SAMPLE.fingerprint, FIRED)], map[0 := row], map[0 := map[]], map[]),
           map[TICKET := Leased(LeaseOf(0, row))], [])
  }

  function EnqueuedState(budget: int): System {
    System(Db(map[1 := Evaluation("t_alpha", SAMPLE.fingerprint, FIRED)], map[0 := NewRow(SAMPLE, budget)], map[0 := map[]], map[]),
           map[], [])
  }

  lemma EnqueuedOnce(budget: int)
    requires 1 <= budget <= 100
    ensures After([Evaluate(0, SAMPLE, budget)]) == EnqueuedState(budget)
  {
    hide DeliveryIdempotencyKey, NewRow;
    var first := [Evaluate(0, SAMPLE, budget)];
    AfterAppend([], first[0]);
    assert [] + [first[0]] == first;
  }

  lemma LeasedNext(budget: int)
    requires 1 <= budget <= 100
    ensures Apply(EnqueuedState(budget), LeaseRow(0, "w", 0.0, 1.0)) == LeasedState(budget)
  {
    hide DeliveryIdempotencyKey;
    assert CanLease(EnqueuedState(budget).db, 0, "w", 0.0, 1.0);
  }

  lemma LeasedOnce(budget: int)
    requires 1 <= budget <= 100
    ensures After([Evaluate(0, SAMPLE, budget)] + [LeaseRow(0, "w", 0.0, 1.0)]) == LeasedState(budget)
  {
    hide After, Apply, LeasedState, EnqueuedState;
    EnqueuedOnce(budget);
    AfterAppend([Evaluate(0, SAMPLE, budget)], LeaseRow(0, "w", 0.0, 1.0));
    LeasedNext(budget);
  }

  /** Where the one row stands, and what the worker of its lease remembers. */
  ghost predicate Stands(s: System, state: OutboxState, attempts: int, budget: int, redrives: int, due: Time) {
    && 0 in s.db.outbox
    && var row := s.db.outbox[0];
       row.intent == SAMPLE && row.state == state && row.attemptCount == attempts && row.maxAttempts == budget
       && row.redriveCount == redrives && row.nextAttemptAt == due
  }

  ghost predicate Remembers(s: System, t: Ticket, sent: bool) {
    && t in s.tasks && 0 in s.db.outbox
    && var row := s.db.outbox[0];
       && row.leaseOwner.Some? && row.leaseExpiresAt.Some? && s.tasks[t].lease == LeaseOf(0, row)
       && (if sent then s.tasks[t].Answered? else s.tasks[t].Leased?)
  }

  lemma LeaseStep(run: seq<Step>, attempts: nat, budget: int, redrives: int, now: Time)
    requires Stands(After(run), PENDING, attempts, budget, redrives, now) && attempts < budget
    ensures var next := After(run + [LeaseRow(0, "w", now, 1.0)]);
            Stands(next, IN_FLIGHT, attempts + 1, budget, redrives, now) && Remembers(next, Ticket(0, attempts + 1), false)
  {
    AfterAppend(run, LeaseRow(0, "w", now, 1.0));
  }

  lemma PostStep(run: seq<Step>, attempts: nat, budget: int, redrives: int, due: Time, code: nat, at: Time)
    requires Stands(After(run), IN_FLIGHT, attempts, budget, redrives, due) && 100 <= code <= 599
    requires Remembers(After(run), Ticket(0, attempts), false)
    ensures var next := After(run + [Post(Ticket(0, attempts), Status(code), true, at, at)]);
            && Stands(next, IN_FLIGHT, attempts, budget, redrives, due) && Remembers(next, Ticket(0, attempts), true)
            && next.tasks[Ticket(0, attempts)].reply == Status(code)
  {
    AfterAppend(run, Post(Ticket(0, attempts), Status(code), true, at, at));
  }

  lemma RecordStep(run: seq<Step>, attempts: nat, budget: int, redrives: int, due: Time, code: nat)
    requires Stands(After(run), IN_FLIGHT, attempts, budget, redrives, due) && attempts >= 1
    requires Remembers(After(run), Ticket(0, attempts), true)
    requires After(run).tasks[Ticket(0, attempts)].reply == Status(code) && code in {200, 404}
    ensures Stands(After(run + [Record(Ticket(0, attempts), 2.0)]), if code == 200 then DELIVERED else DEAD_LETTER,
                   attempts, budget, redrives, due)
  {
    var step := Record(Ticket(0, attempts), 2.0);
    RunKeepsInv(run);
    RowChangesBy(After(run), step, 0);
    AfterAppend(run, step);
    OutcomeStands(After(run), attempts, budget, redrives, due, code);
    hide Inv, Apply, OutcomeRow, IsOutcome, IsLease;
  }

  lemma OutcomeStands(s: System, attempts: nat, budget: int, redrives: int, due: Time, code: nat)
    requires Stands(s, IN_FLIGHT, attempts, budget, redrives, due) && attempts >= 1
    requires Remembers(s, Ticket(0, attempts), true)
    requires s.tasks[Ticket(0, attempts)].reply == Status(code) && code in {200, 404}
    ensures var step := Record(Ticket(0, attempts), 2.0);
            && !IsLease(s, step, 0) && IsOutcome(s, step, 0)
            && var row := OutcomeRow(s, step, 0);
               && row.intent == SAMPLE && row.state == (if code == 200 then DELIVERED else DEAD_LETTER)
               && row.attemptCount == attempts && row.maxAttempts == budget
               && row.redriveCount == redrives && row.nextAttemptAt == due
  {
    assert Holds(s.db, s.tasks[Ticket(0, attempts)].lease);
    hide ReportOf;
  }

  lemma RedriveStep(run: seq<Step>, attempts: nat, budget: int, redrives: int, due: Time, now: Time, additional: int)
    requires Stands(After(run), DEAD_LETTER, attempts, budget, redrives, due) && additional >= 1 && attempts + additional <= 100
    ensures Stands(After(run + [Redrive("t_alpha", 0, now, additional)]), PENDING, attempts, attempts + additional,
                   redrives + 1, now)
  {
    AfterAppend(run, Redrive("t_alpha", 0, now, additional));
  }

  lemma Enqueued(budget: int)
    requires 1 <= budget <= 100
    ensures Stands(After([Evaluate(0, SAMPLE, budget)]), PENDING, 0, budget, 0, 0.0)
  {
    hide DeliveryIdempotencyKey;
    var first := [Evaluate(0, SAMPLE, budget)];
    AfterAppend([], first[0]);
    assert [] + [first[0]] == first;
  }

  /** An early permanent failure and a re-drive with one more attempt lower the ceiling from 5 to 2. */
  lemma RedriveLowersTheCeiling() returns (run: seq<Step>)
    ensures run == [Evaluate(0, SAMPLE, 5), LeaseRow(0, "w", 0.0, 1.0), Post(TICKET, Status(404), true, 1.0, 1.0),
                    Record(TICKET, 2.0), Redrive("t_alpha", 0, 2.0, 1)]
    ensures Stands(After(run[..4]), DEAD_LETTER, 1, 5, 0, 0.0) && Stands(After(run), PENDING, 1, 2, 1, 2.0)
  {
    hide After, Stands, Remembers;
    run := [Evaluate(0, SAMPLE, 5)];
    Enqueued(5);
    LeaseStep(run, 0, 5, 0, 0.0);
    run := run + [LeaseRow(0, "w", 0.0, 1.0)];
    PostStep(run, 1, 5, 0, 0.0, 404, 1.0);
    run := run + [Post(TICKET, Status(404), true, 1.0, 1.0)];
    RecordStep(run, 1, 5, 0, 0.0, 404);
    run := run + [Record(TICKET, 2.0)];
    RedriveStep(run, 1, 5, 0, 0.0, 2.0, 1);
    assert (run + [Redrive("t_alpha", 0, 2.0, 1)])[..4] == run;
    run := run + [Redrive("t_alpha", 0, 2.0, 1)];
  }

  /** The re-driven attempt is answered with 200: the row is DELIVERED and its ledger row stays FAILED. */
  lemma DeliveredWithAFailedLedger() returns (run: seq<Step>)
    ensures var db := After(run).db;
            && 0 in db.outbox && db.outbox[0].state == DELIVERED
            && KeyOf(SAMPLE) in db.ledger && db.ledger[KeyOf(SAMPLE)].status == LEDGER_FAILED
  {
    run := RedriveLowersTheCeiling();
    LeaseStep(run, 1, 2, 1, 2.0);
    run := run + [LeaseRow(0, "w", 2.0, 1.0)];
    PostStep(run, 2, 2, 1, 2.0, 200, 3.0);
    run := run + [Post(Ticket(0, 2), Status(200), true, 3.0, 3.0)];
    RecordStep(run, 2, 2, 1, 2.0, 200);
    run := run + [Record(Ticket(0, 2), 2.0)];
    RunKeepsInv(run);
    hide After;
    RedrivenLedger(After(run).db);
  }

  lemma RedrivenLedger(db: Db)
    requires DbInv(db) && 0 in db.outbox && db.outbox[0].redriveCount > 0
    ensures var key := KeyOf(db.outbox[0].intent);
            key in db.ledger && (db.outbox[0].state == DELIVERED ==> db.ledger[key].status == LEDGER_FAILED)
  {
    assert RowOk(db, 0);
  }

  /** A retryable outcome buried on the first of five attempts is refused by the trigger, so the call raises. */
  lemma EarlyBurialIsRefused() returns (run: seq<Step>, l: LeasedDelivery)
    ensures Holds(After(run).db, l)
    ensures var r := Report(RETRYABLE_FAILURE, Some(503), Some("http_503"), 1.0, 1.0);
            RecordDeadLetter(After(run).db, l, r) == Err(DatabaseError)
  {
    run := [Evaluate(0, SAMPLE, 5)] + [LeaseRow(0, "w", 0.0, 1.0)];
    LeasedOnce(5);
    l := LeasedState(5).tasks[TICKET].lease;
  }

  /** At that point the triggers would also let the row be taken over with its redrive counter raised. */
  lemma TakeoverMayRaiseTheCounter() returns (run: seq<Step>, row: OutboxRow)
    ensures var db := After(run).db;
            && 0 in db.outbox && db.outbox[0].redriveCount == 0 && row.redriveCount == 7
            && Accepts(db, UpdateRow(0, row))
  {
    run := [Evaluate(0, SAMPLE, 5)] + [LeaseRow(0, "w", 0.0, 1.0)];
    LeasedOnce(5);
    RunKeepsInv(run);
    hide After, DeliveryIdempotencyKey, DbInv, Rely, Faithful, Holds, Accepts;
    var db := LeasedState(5).db;
    LeaseIsAccepted(db, 0, "v", 5.0, 1.0);
    row := LeasedRow(db.outbox[0], "v", 5.0, 1.0);
    RedriveCounterIsLoose(db, 0, row, 7);
    row := row.(redriveCount := row.redriveCount + 7);
  }

  /** With a base of a millisecond no attempt ever waits the whole default cap. */
  lemma ATinyBaseNeverReachesTheCap(a: int)
    requires a >= 1
    ensures Delay(a, 0.001, DEFAULT_CAP) < DEFAULT_CAP
  {
    assert Doubled(0.001, MAX_EXPONENT) == 65.536 by { DoubledByTable(); }
    DoubledGrows(0.001, Exponent(a), MAX_EXPONENT);
  }

  lemma DoubledByTable()
    ensures Doubled(0.001, 16) == 65.536
  {
    assert Doubled(0.001, 4) == 0.016;
    assert Doubled(0.001, 8) == 0.256;
    assert Doubled(0.001, 12) == 4.096;
  }
}
