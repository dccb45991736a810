/** No committed intent is lost, and exactly which rows can never move again. */
module OutboxProgress {
  import opened Wrappers
  import opened OutboxTables
  import opened OutboxOperations
  import opened OutboxInvariant
  import opened Delivery
  import opened OutboxSystem
  import opened OutboxHistory

  /** The time from which the lease scan selects the row. */
  function DueFrom(row: OutboxRow): Time {
    if row.state == IN_FLIGHT && row.leaseExpiresAt.Some? && row.leaseExpiresAt.value > row.nextAttemptAt
    then row.leaseExpiresAt.value
    else row.nextAttemptAt
  }

  /** In flight on the last attempt of its budget: no scan ever selects it again. */
  predicate OnFinalAttempt(row: OutboxRow) {
    row.state == IN_FLIGHT && row.attemptCount == row.maxAttempts
  }

  /**
   No lost intent: a row is DELIVERED, DEAD_LETTER, in flight on its final budgeted attempt, or selectable
   from DueFrom on; and the first three are exactly the rows that no scan selects at any time.
   */
  lemma NoLostIntent(run: seq<Step>, id: nat)
    requires id in After(run).db.outbox
    ensures var row := After(run).db.outbox[id];
            var parked := row.state == DELIVERED || row.state == DEAD_LETTER || OnFinalAttempt(row);
            && (!parked ==> forall now: Time :: Eligible(row, now) <==> now >= DueFrom(row))
            && (parked <==> forall now: Time :: !Eligible(row, now))
  {
    RunKeepsInv(run);
    assert RowOk(After(run).db, id);
    var row := After(run).db.outbox[id];
    if !(row.state == DELIVERED || row.state == DEAD_LETTER || OnFinalAttempt(row)) {
      assert Eligible(row, DueFrom(row));
    }
  }

  /** A worker still remembers the lease that the row is in flight under. */
  predicate LeaseAlive(s: System, id: nat)
    requires id in s.db.outbox
  {
    Ticket(id, s.db.outbox[id].attemptCount) in s.tasks
  }

  /** Delivered, dead-lettered at the ceiling of 100 attempts, or stranded by a crash on the final attempt. */
  predicate Frozen(s: System, id: nat)
    requires id in s.db.outbox
  {
    var row := s.db.outbox[id];
    || row.state == DELIVERED
    || (row.state == DEAD_LETTER && row.attemptCount == MAX_ATTEMPT_CEILING)
    || (OnFinalAttempt(row) && !LeaseAlive(s, id))
  }

  lemma OutcomesComeFromLiveLeases(s: System, step: Step, id: nat)
    requires Inv(s) && id in s.db.outbox && IsOutcome(s, step, id)
    ensures step.ticket == Ticket(id, s.db.outbox[id].attemptCount) && LeaseAlive(s, id)
  {
    hide RowInv, DbInv;
    assert TaskInv(s.db, step.ticket, s.tasks[step.ticket]);
  }

  lemma FrozenRowStays(s: System, step: Step, id: nat)
    requires Inv(s) && id in s.db.outbox && Frozen(s, id)
    ensures id in Apply(s, step).db.outbox
    ensures Apply(s, step).db.outbox[id] == s.db.outbox[id]
    ensures Frozen(Apply(s, step), id)
  {
    hide RowInv, DbInv, Rely;
    RowChangesBy(s, step, id);
    RowBounds(s.db, id);
    if IsOutcome(s, step, id) {
      OutcomesComeFromLiveLeases(s, step, id);
    }
  }

  lemma {:induction false} FrozenForever(run: seq<Step>, more: seq<Step>, id: nat)
    requires id in After(run).db.outbox && Frozen(After(run), id)
    ensures id in After(run + more).db.outbox
    ensures After(run + more).db.outbox[id] == After(run).db.outbox[id]
    ensures Frozen(After(run + more), id)
    decreases |more|
  {
    if more == [] {
      assert run + more == run;
    } else {
      FrozenForever(run, Before(more), id);
      assert run + more == (run + Before(more)) + [Last(more)];
      AfterAppend(run + Before(more), Last(more));
      RunKeepsInv(run + Before(more));
      FrozenRowStays(After(run + Before(more)), Last(more), id);
    }
  }

  lemma LiveLeaseCanReport(run: seq<Step>, id: nat) returns (more: seq<Step>)
    requires id in After(run).db.outbox && After(run).db.outbox[id].state == IN_FLIGHT && LeaseAlive(After(run), id)
    ensures id in After(run + more).db.outbox
    ensures After(run + more).db.outbox[id] != After(run).db.outbox[id]
  {
    hide RowInv, DbInv, Rely;
    var s := After(run);
    RunKeepsInv(run);
    var t := Ticket(id, s.db.outbox[id].attemptCount);
    var send, record := Post(t, Status(200), true, 0.0, 0.0), Record(t, 2.0);
    AfterAppend(run, send);
    var s1 := Apply(s, send);
    assert TaskInv(s.db, t, s.tasks[t]);
    StepKeepsInv(s, send);
    assert s1.db == s.db && CanRecord(s1, t) && Holds(s1.db, s1.tasks[t].lease);
    AfterAppend(run + [send], record);
    EveryWriteLowersTheMeasure(s1, record, id);
    more := [send] + [record];
    assert run + more == (run + [send]) + [record];
  }

  /** From any other row some continuation writes it again. */
  lemma OtherRowsCanMove(run: seq<Step>, id: nat) returns (more: seq<Step>)
    requires id in After(run).db.outbox && !Frozen(After(run), id)
    ensures id in After(run + more).db.outbox
    ensures After(run + more).db.outbox[id] != After(run).db.outbox[id]
  {
    hide RowInv, DbInv, Rely;
    var s := After(run);
    var row := s.db.outbox[id];
    RunKeepsInv(run);
    RowBounds(s.db, id);
    if OnFinalAttempt(row) {
      more := LiveLeaseCanReport(run, id);
    } else {
      var step := if row.state == DEAD_LETTER then Step.Redrive(row.intent.tenantId, id, 0.0, 1)
                  else LeaseRow(id, "worker", DueFrom(row), 1.0);
      AfterAppend(run, step);
      EveryWriteLowersTheMeasure(s, step, id);
      more := [step];
    }
  }

  /**
   Exactly the frozen rows never change again. The one intent a crash can strand is a row in flight on its
   final budgeted attempt whose worker died: it can be neither leased, nor reported, nor re-driven.
   */
  lemma RowIsStuckIffFrozen(run: seq<Step>, id: nat)
    requires id in After(run).db.outbox
    ensures Frozen(After(run), id)
            <==> forall more: seq<Step> ::
                   id in After(run + more).db.outbox && After(run + more).db.outbox[id] == After(run).db.outbox[id]
  {
    hide RowInv, Rely, DbInv;
    if Frozen(After(run), id) {
      forall more: seq<Step>
        ensures id in After(run + more).db.outbox && After(run + more).db.outbox[id] == After(run).db.outbox[id]
      {
        FrozenForever(run, more, id);
      }
    } else {
      var more := OtherRowsCanMove(run, id);
      assert After(run + more).db.outbox[id] != After(run).db.outbox[id];
    }
  }
}
