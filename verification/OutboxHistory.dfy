/**
 What one step can do to one row, and the run-long facts that follow: fencing, conservation of evidence,
 bounded runs, and which rows can still move.
 */
module OutboxHistory {
  import opened Wrappers
  import opened OutboxTables
  import opened OutboxOperations
  import opened OutboxInvariant
  import opened Delivery
  import opened OutboxSystem
  import opened Backoff

  function Before(run: seq<Step>): seq<Step>
    requires run != []
  {
    run[..|run| - 1]
  }

  function Last(run: seq<Step>): Step
    requires run != []
  {
    run[|run| - 1]
  }

  lemma AfterAppend(run: seq<Step>, step: Step)
    ensures After(run + [step]) == Apply(After(run), step)
  {
    assert (run + [step])[..|run|] == run;
  }

  // ------------------------------------------------- one step on one row

  predicate IsLease(s: System, step: Step, id: nat) {
    step.LeaseRow? && step.id == id && CanLease(s.db, id, step.workerId, step.now, step.leaseSeconds)
  }

  predicate IsOutcome(s: System, step: Step, id: nat) {
    step.Record? && step.ticket.outboxId == id && CanRecord(s, step.ticket) && Holds(s.db, s.tasks[step.ticket].lease)
  }

  predicate IsRedrive(s: System, step: Step, id: nat) {
    step.Redrive? && step.id == id
    && OutboxOperations.Redrive(s.db, step.tenantId, id, step.now, step.additional).Ok?
  }

  /** The row an outcome step leaves behind, and the evidence it appends. */
  function OutcomeRow(s: System, step: Step, id: nat): OutboxRow
    requires id in s.db.outbox && IsOutcome(s, step, id)
  {
    var task := s.tasks[step.ticket];
    var d := Classify(task.reply);
    if task.lease.outboxId != id then s.db.outbox[id]
    else SettledRow(s.db.outbox[id], NextState(task.lease, d), NextDue(s.db, task.lease, d, task.completedAt, step.base),
                    ReportOf(d, task.startedAt, task.completedAt))
  }

  function OutcomeEvent(s: System, step: Step, id: nat): AttemptEvent
    requires IsOutcome(s, step, id)
  {
    var task := s.tasks[step.ticket];
    Evidence(task.lease, ReportOf(Classify(task.reply), task.startedAt, task.completedAt))
  }

  /** A row is written only by a lease, an outcome of its current lease, or a re-drive. */
  lemma RowChangesBy(s: System, step: Step, id: nat)
    requires Inv(s) && id in s.db.outbox
    ensures var s' := Apply(s, step);
            var row := s.db.outbox[id];
            && id in s'.db.outbox
            && s'.db.outbox[id] ==
               (if IsLease(s, step, id) then LeasedRow(row, step.workerId, step.now, step.leaseSeconds)
                else if IsOutcome(s, step, id) then OutcomeRow(s, step, id)
                else if IsRedrive(s, step, id) then RedrivenRow(row, NewCeiling(row, step.additional), step.now)
                else row)
            && EventsOf(s'.db, id) ==
               (if IsOutcome(s, step, id) then EventsOf(s.db, id)[row.attemptCount := OutcomeEvent(s, step, id)]
                else EventsOf(s.db, id))
    ensures IsOutcome(s, step, id) ==> s.tasks[step.ticket].lease.outboxId == id
  {
    hide *;
    if step.Record? {
      OutcomeChanges(s, step.ticket, step.base, id);
      OutcomesAreNothingElse(s, step, id);
    } else {
      OtherChanges(s, step, id);
    }
  }

  lemma OutcomesAreNothingElse(s: System, step: Step, id: nat)
    ensures step.Record? ==> !IsLease(s, step, id) && !IsRedrive(s, step, id)
    ensures !step.Record? ==> !IsOutcome(s, step, id)
  {
  }

  lemma OtherChanges(s: System, step: Step, id: nat)
    requires id in s.db.outbox && !step.Record?
    ensures var s' := Apply(s, step);
            var row := s.db.outbox[id];
            && id in s'.db.outbox && !IsOutcome(s, step, id)
            && s'.db.outbox[id] ==
               (if IsLease(s, step, id) then LeasedRow(row, step.workerId, step.now, step.leaseSeconds)
                else if IsRedrive(s, step, id) then RedrivenRow(row, NewCeiling(row, step.additional), step.now)
                else row)
            && EventsOf(s'.db, id) == EventsOf(s.db, id)
  {
    hide LeasedRow, RedrivenRow, NewCeiling, Holds, CanRecord, RecordTask;
    match step
    case LeaseRow(i, workerId, now, leaseSeconds) => LeaseChanges(s, i, workerId, now, leaseSeconds, id);
    case Redrive(tenantId, i, now, additional) => RedriveChanges(s, tenantId, i, now, additional, id);
    case Evaluate(_, _, _) => hide NewRow;
    case _ =>
  }

  lemma LeaseChanges(s: System, i: nat, workerId: string, now: Time, leaseSeconds: Time, id: nat)
    requires id in s.db.outbox
    ensures var step := LeaseRow(i, workerId, now, leaseSeconds);
            var db := Apply(s, step).db;
            && id in db.outbox && db.events == s.db.events
            && db.outbox[id] == if IsLease(s, step, id) then LeasedRow(s.db.outbox[id], workerId, now, leaseSeconds)
                                else s.db.outbox[id]
  {
  }

  lemma RedriveChanges(s: System, tenantId: string, i: nat, now: Time, additional: int, id: nat)
    requires id in s.db.outbox
    ensures var step := Redrive(tenantId, i, now, additional);
            var db := Apply(s, step).db;
            && id in db.outbox && db.events == s.db.events
            && db.outbox[id] == if IsRedrive(s, step, id)
                                then RedrivenRow(s.db.outbox[id], NewCeiling(s.db.outbox[id], additional), now)
                                else s.db.outbox[id]
  {
  }

  lemma OutcomeChanges(s: System, t: Ticket, base: real, id: nat)
    requires Inv(s) && id in s.db.outbox
    ensures var step := Record(t, base);
            var s' := Apply(s, step);
            && id in s'.db.outbox
            && (IsOutcome(s, step, id) ==> s.tasks[t].lease.outboxId == id)
            && s'.db.outbox[id] == (if IsOutcome(s, step, id) then OutcomeRow(s, step, id) else s.db.outbox[id])
            && EventsOf(s'.db, id) ==
               (if IsOutcome(s, step, id)
                then EventsOf(s.db, id)[s.db.outbox[id].attemptCount := OutcomeEvent(s, step, id)] else EventsOf(s.db, id))
  {
    hide DbInv, Faithful, Apply, Classify, ReportOf, NextState, NextDue, LedgerEntry;
    assert t in s.tasks ==> TaskInv(s.db, t, s.tasks[t]);
    OutcomeIsApplied(s, t, base);
  }

  lemma OutcomeIsApplied(s: System, t: Ticket, base: real)
    requires Inv(s)
    ensures var db := Apply(s, Record(t, base)).db;
            if CanRecord(s, t) && Holds(s.db, s.tasks[t].lease) then
              var task := s.tasks[t];
              var d := Classify(task.reply);
              db == Settle(s.db, task.lease, NextState(task.lease, d), NextDue(s.db, task.lease, d, task.completedAt, base),
                           ReportOf(d, task.startedAt, task.completedAt))
            else db == s.db
  {
    hide RowInv, Rely, DbInv, Classify, ReportOf, NextState, NextDue, Settle, RecordDecision;
    if CanRecord(s, t) {
      var task := s.tasks[t];
      assert TaskInv(s.db, t, task);
      RecordSettlesOrLoses(s.db, task.lease, task.reply, task.startedAt, task.completedAt, base);
    }
  }

  /** A row appears only as a fresh PENDING intent without evidence. */
  lemma RowAppearsBy(s: System, step: Step, id: nat)
    requires Inv(s) && id !in s.db.outbox && id in Apply(s, step).db.outbox
    ensures step.Evaluate? && step.id == id
    ensures Apply(s, step).db.outbox[id] == NewRow(step.intent, step.maxAttempts)
    ensures EventsOf(Apply(s, step).db, id) == map[]
  {
    hide RowInv, Rely, DbInv;
    if step.Record? && CanRecord(s, step.ticket) {
      var task := s.tasks[step.ticket];
      assert TaskInv(s.db, step.ticket, task);
      RecordSettlesOrLoses(s.db, task.lease, task.reply, task.startedAt, task.completedAt, step.base);
    }
  }

  // --------------------------------------------------------------- fencing

  /** Every lease handed out so far, in order, whether or not its worker is still alive. */
  function Issued(run: seq<Step>): seq<LeasedDelivery> {
    if run == [] then []
    else
      var s, step := After(Before(run)), Last(run);
      Issued(Before(run))
      + if step.LeaseRow? && IsLease(s, step, step.id)
        then [LeaseOf(step.id, LeasedRow(s.db.outbox[step.id], step.workerId, step.now, step.leaseSeconds))] else []
  }

  lemma {:induction false} IssuedStaysFaithful(run: seq<Step>)
    ensures forall l | l in Issued(run) :: Faithful(After(run).db, l)
  {
    hide RowInv, Rely, DbInv, Faithful;
    if run != [] {
      var s, step := After(Before(run)), Last(run);
      IssuedStaysFaithful(Before(run));
      RunKeepsInv(Before(run));
      StepIsSound(s, step);
      forall l | l in Issued(run)
        ensures Faithful(After(run).db, l)
      {
        if l in Issued(Before(run)) {
          RelyKeepsFaithful(s.db, After(run).db, l);
        } else {
          LeaseIsAccepted(s.db, step.id, step.workerId, step.now, step.leaseSeconds);
        }
      }
    }
  }

  /** Attempt numbers are fencing tokens: each (outbox_id, attempt_number) is issued at most once, in rising order. */
  lemma {:induction false} EachAttemptIsIssuedOnce(run: seq<Step>, i: nat, j: nat)
    requires i < j < |Issued(run)| && Issued(run)[i].outboxId == Issued(run)[j].outboxId
    ensures Issued(run)[i].attemptNumber < Issued(run)[j].attemptNumber
  {
    hide RowInv, Rely, DbInv;
    var earlier := Issued(Before(run));
    if j < |earlier| {
      EachAttemptIsIssuedOnce(Before(run), i, j);
    } else {
      IssuedStaysFaithful(Before(run));
      assert earlier[i] in earlier;
    }
  }

  /**
   Fencing: once a later lease of the same row exists, no report under the earlier one changes anything,
   even when the same worker id holds both; nor does a second report under the same lease.
   */
  lemma SupersededLeaseIsPowerless(run: seq<Step>, i: nat, j: nat, r: Report, httpStatus: int, base: real)
    requires i < j < |Issued(run)| && Issued(run)[i].outboxId == Issued(run)[j].outboxId
    ensures var db, l := After(run).db, Issued(run)[i];
            && l.attemptNumber >= 1
            && RecordDelivered(db, l, httpStatus, r.startedAt, r.completedAt).Err?
            && RecordRetry(db, l, r, base).Err?
            && RecordDeadLetter(db, l, r).Err?
  {
    hide RowInv, Rely, DbInv;
    IssuedStaysFaithful(run);
    EachAttemptIsIssuedOnce(run, i, j);
    var issued := Issued(run);
    assert Faithful(After(run).db, issued[i]) && Faithful(After(run).db, issued[j]);
  }

  /** An outcome is recorded only for the latest lease of its row, and leaves that lease powerless too. */
  lemma OnlyTheLatestLeaseReports(run: seq<Step>, i: nat, j: nat, state: OutboxState, next: Time, r: Report)
    requires i < |Issued(run)| && Holds(After(run).db, Issued(run)[i])
    requires j < |Issued(run)| && Issued(run)[j].outboxId == Issued(run)[i].outboxId
    requires state != IN_FLIGHT
    ensures j <= i
    ensures !Holds(Settle(After(run).db, Issued(run)[i], state, next, r), Issued(run)[i])
  {
    hide RowInv, Rely, DbInv;
    IssuedStaysFaithful(run);
    assert Issued(run)[j] in Issued(run) && Faithful(After(run).db, Issued(run)[j]);
    if i < j {
      EachAttemptIsIssuedOnce(run, i, j);
    }
  }

  /** A lease whose expiry has passed but which nobody took over may still report its outcome. */
  lemma ExpiryAloneDoesNotFence(run: seq<Step>, i: nat, reply: Reply, completedAt: Time, base: real)
    requires i < |Issued(run)| && ValidReply(reply)
    requires Holds(After(run).db, Issued(run)[i]) && Issued(run)[i].leaseExpiresAt <= completedAt
    ensures var l := Issued(run)[i];
            l.attemptNumber >= 1
            && RecordDecision(After(run).db, l, Classify(reply), completedAt, completedAt, base).Ok?
  {
    hide RowInv, Rely, DbInv;
    IssuedStaysFaithful(run);
    RunKeepsInv(run);
    assert Issued(run)[i] in Issued(run);
    RecordSettlesOrLoses(After(run).db, Issued(run)[i], reply, completedAt, completedAt, base);
  }

  // ---------------------------------------------------------- conservation

  /** How often an expired lease of the row was taken over. */
  function Takeovers(run: seq<Step>, id: nat): nat {
    if run == [] then 0
    else
      var s, step := After(Before(run)), Last(run);
      Takeovers(Before(run), id) + if IsLease(s, step, id) && s.db.outbox[id].state == IN_FLIGHT then 1 else 0
  }

  lemma {:induction false} AttemptsAreConserved(run: seq<Step>, id: nat)
    ensures id !in After(run).db.outbox ==> Takeovers(run, id) == 0
    ensures id in After(run).db.outbox ==>
              var row := After(run).db.outbox[id];
              row.attemptCount
              == |EventsOf(After(run).db, id)| + Takeovers(run, id) + (if row.state == IN_FLIGHT then 1 else 0)
  {
    if run != [] {
      var s, step := After(Before(run)), Last(run);
      AttemptsAreConserved(Before(run), id);
      RunKeepsInv(Before(run));
      if id in s.db.outbox {
        RowChangesBy(s, step, id);
        AttemptBalance(s, step, id);
      } else if id in After(run).db.outbox {
        RowAppearsBy(s, step, id);
      }
    }
  }

  lemma AttemptBalance(s: System, step: Step, id: nat)
    requires Inv(s) && id in s.db.outbox
    ensures var s' := Apply(s, step);
            && id in s'.db.outbox
            && var a, b := s.db.outbox[id], s'.db.outbox[id];
               b.attemptCount - |EventsOf(s'.db, id)| - (if b.state == IN_FLIGHT then 1 else 0)
               == a.attemptCount - |EventsOf(s.db, id)| - (if a.state == IN_FLIGHT then 1 else 0)
                  + (if IsLease(s, step, id) && a.state == IN_FLIGHT then 1 else 0)
  {
    RowChangesBy(s, step, id);
    if IsOutcome(s, step, id) {
      OutcomeEndsTheAttempt(s, step, id);
    }
    hide Inv, Apply, CanLease, IsOutcome, OutcomeRow, OutcomeEvent, OutboxOperations.Redrive;
    LeaseAndRedriveStates(s, step, id);
  }

  lemma LeaseAndRedriveStates(s: System, step: Step, id: nat)
    requires id in s.db.outbox
    ensures IsRedrive(s, step, id) ==> s.db.outbox[id].state == DEAD_LETTER
    ensures IsLease(s, step, id) ==> s.db.outbox[id].state in {PENDING, IN_FLIGHT} && !IsOutcome(s, step, id)
  {
  }

  lemma OutcomeEndsTheAttempt(s: System, step: Step, id: nat)
    requires Inv(s) && id in s.db.outbox && IsOutcome(s, step, id) && s.tasks[step.ticket].lease.outboxId == id
    ensures var row, next := s.db.outbox[id], OutcomeRow(s, step, id);
            && row.state == IN_FLIGHT && row.attemptCount !in EventsOf(s.db, id)
            && next.state != IN_FLIGHT && next.attemptCount == row.attemptCount
  {
    ActiveAttemptIsUnrecorded(s.db, s.tasks[step.ticket].lease);
    hide DbInv, TaskInv, Delay, ReportOf;
  }

  /** Attempt evidence of a row in any reachable state. */
  lemma EvidenceConservation(run: seq<Step>, id: nat)
    requires id in After(run).db.outbox
    ensures var row := After(run).db.outbox[id];
            var events := EventsOf(After(run).db, id);
            && (forall n | n in events :: 1 <= n <= row.attemptCount)
            && (row.state == IN_FLIGHT ==> row.attemptCount !in events)
            && (row.state != IN_FLIGHT && row.attemptCount >= 1 ==> row.attemptCount in events)
            && (row.state == DELIVERED <==> exists n :: n in events && events[n].outcome == ATTEMPT_DELIVERED)
            && (forall n | n in events && events[n].outcome == ATTEMPT_DELIVERED :: n == row.attemptCount)
            && row.attemptCount == |events| + Takeovers(run, id) + (if row.state == IN_FLIGHT then 1 else 0)
  {
    RunKeepsInv(run);
    assert RowOk(After(run).db, id);
    AttemptsAreConserved(run, id);
  }

  // ---------------------------------------------------------- bounded runs

  /** Strictly falls whenever the row is written. */
  function Measure(row: OutboxRow): int {
    3 * (MAX_ATTEMPT_CEILING - row.attemptCount)
    + (match row.state case IN_FLIGHT => 2 case DEAD_LETTER => 1 case _ => 0)
  }

  /** Successful writes of the row, its insert included. */
  function Writes(run: seq<Step>, id: nat): nat {
    if run == [] then 0
    else
      var s, s' := After(Before(run)).db, After(run).db;
      Writes(Before(run), id)
      + if id in s'.outbox && (id !in s.outbox || s'.outbox[id] != s.outbox[id]) then 1 else 0
  }

  lemma EveryWriteLowersTheMeasure(s: System, step: Step, id: nat)
    requires Inv(s) && id in s.db.outbox
    ensures id in Apply(s, step).db.outbox
    ensures Apply(s, step).db.outbox[id] == s.db.outbox[id]
            <==> !(IsLease(s, step, id) || IsOutcome(s, step, id) || IsRedrive(s, step, id))
    ensures Apply(s, step).db.outbox[id] != s.db.outbox[id] ==>
              Measure(Apply(s, step).db.outbox[id]) < Measure(s.db.outbox[id])
  {
    RowChangesBy(s, step, id);
    hide Inv, Apply, Measure, LeasedRow, RedrivenRow, OutcomeRow, OutcomeEvent, CanLease, CanRecord, Holds, OutboxOperations.Redrive;
    if IsOutcome(s, step, id) {
      OutcomeLowers(s, step, id);
    } else if IsLease(s, step, id) {
      LeaseLowers(s.db.outbox[id], step.workerId, step.now, step.leaseSeconds);
    } else if IsRedrive(s, step, id) {
      LeaseAndRedriveStates(s, step, id);
      RedriveLowers(s.db.outbox[id], NewCeiling(s.db.outbox[id], step.additional), step.now);
    }
  }

  lemma LeaseLowers(row: OutboxRow, workerId: string, now: Time, leaseSeconds: Time)
    ensures LeasedRow(row, workerId, now, leaseSeconds) != row
    ensures Measure(LeasedRow(row, workerId, now, leaseSeconds)) < Measure(row)
  {
  }

  lemma RedriveLowers(row: OutboxRow, ceiling: int, now: Time)
    requires row.state == DEAD_LETTER
    ensures RedrivenRow(row, ceiling, now) != row && Measure(RedrivenRow(row, ceiling, now)) < Measure(row)
  {
  }

  lemma OutcomeLowers(s: System, step: Step, id: nat)
    requires id in s.db.outbox && IsOutcome(s, step, id) && s.tasks[step.ticket].lease.outboxId == id
    ensures OutcomeRow(s, step, id) != s.db.outbox[id] && Measure(OutcomeRow(s, step, id)) < Measure(s.db.outbox[id])
  {
    hide Delay, ReportOf;
  }

  lemma {:induction false} RunsAreBounded(run: seq<Step>, id: nat)
    ensures id !in After(run).db.outbox ==> Writes(run, id) == 0
    ensures id in After(run).db.outbox ==>
              var row := After(run).db.outbox[id];
              && Writes(run, id) + Measure(row) <= 301
              && Measure(row) >= 0
              && row.redriveCount <= row.attemptCount <= row.maxAttempts <= MAX_ATTEMPT_CEILING
    ensures Writes(run, id) <= 301
  {
    RunKeepsInv(run);
    hide Inv, Apply, Measure;
    if id in After(run).db.outbox {
      CountersAreChained(After(run), id);
    }
    if run != [] {
      var s, step := After(Before(run)), Last(run);
      RunsAreBounded(Before(run), id);
      RunKeepsInv(Before(run));
      if id in s.db.outbox {
        EveryWriteLowersTheMeasure(s, step, id);
      }
    }
  }

  lemma CountersAreChained(s: System, id: nat)
    requires Inv(s) && id in s.db.outbox
    ensures var row := s.db.outbox[id];
            && 0 <= Measure(row) <= 300
            && row.redriveCount <= row.attemptCount <= row.maxAttempts <= MAX_ATTEMPT_CEILING
  {
    RowBounds(s.db, id);
  }

  // -------------------------------------------------------------- re-drives

  /**
   In every reachable state a re-drive succeeds exactly on a dead-lettered row of the tenant below 100 attempts,
   and then leaves the smaller of `additional` and what is left to 100 as the new budget, due at once; so it lowers
   the ceiling exactly when that budget is less than what the row gave up.
   */
  lemma RedriveGrantsAttempts(run: seq<Step>, tenantId: string, id: nat, now: Time, additional: int)
    ensures var db := After(run).db;
            var done := OutboxOperations.Redrive(db, tenantId, id, now, additional);
            && (done.Ok? <==>
                  && additional >= 1 && id in db.outbox && db.outbox[id].intent.tenantId == tenantId
                  && db.outbox[id].state == DEAD_LETTER && db.outbox[id].attemptCount < MAX_ATTEMPT_CEILING)
            && (done.Ok? ==>
                  var was, row := db.outbox[id], done.value.outbox[id];
                  && done.value == db.(outbox := db.outbox[id := row])
                  && row.intent == was.intent && row.state == PENDING && row.attemptCount == was.attemptCount
                  && row.redriveCount == was.redriveCount + 1
                  && row.maxAttempts <= MAX_ATTEMPT_CEILING
                  && 1 <= row.maxAttempts - row.attemptCount <= additional
                  && (row.maxAttempts - row.attemptCount == additional || row.maxAttempts == MAX_ATTEMPT_CEILING)
                  && (row.maxAttempts < was.maxAttempts <==> was.attemptCount + additional < was.maxAttempts)
                  && (forall at: Time :: Eligible(row, at) <==> at >= now))
  {
    RunKeepsInv(run);
    hide Inv, After;
    var db := After(run).db;
    if id in db.outbox {
      InvBounds(After(run), id);
    }
  }

  lemma InvBounds(s: System, id: nat)
    requires Inv(s) && id in s.db.outbox
    ensures 0 <= s.db.outbox[id].attemptCount <= s.db.outbox[id].maxAttempts <= MAX_ATTEMPT_CEILING
  {
    RowBounds(s.db, id);
  }

  /** Successful re-drives of the row. */
  function Redrives(run: seq<Step>, id: nat): nat {
    if run == [] then 0
    else Redrives(Before(run), id) + if IsRedrive(After(Before(run)), Last(run), id) then 1 else 0
  }

  /** The counter that the triggers leave loose is exact under the repository's own statements. */
  lemma {:induction false} RedrivesAreCounted(run: seq<Step>, id: nat)
    ensures if id in After(run).db.outbox then After(run).db.outbox[id].redriveCount == Redrives(run, id)
            else Redrives(run, id) == 0
  {
    if run != [] {
      var s, step := After(Before(run)), Last(run);
      RedrivesAreCounted(Before(run), id);
      RunKeepsInv(Before(run));
      if id in s.db.outbox {
        RowChangesBy(s, step, id);
      } else if id in After(run).db.outbox {
        RowAppearsBy(s, step, id);
      }
      hide Inv, Delay, Classify;
    }
  }
}
