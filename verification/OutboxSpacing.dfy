/** With a clock that never runs backwards, how far apart two consecutive leases of a row must be. */
module OutboxSpacing {
  import opened Wrappers
  import opened OutboxTables
  import opened OutboxOperations
  import opened OutboxInvariant
  import opened OutboxSystem
  import opened OutboxHistory
  import opened Backoff

  /** The clock reading a step is stamped with; recording and crashing take none of their own. */
  function Stamp(step: Step): Option<Time> {
    match step
    case Evaluate(_, intent, _) => Some(intent.enqueuedAt)
    case ClaimLedger(_, at) => Some(at)
    case LeaseRow(_, _, now, _) => Some(now)
    case Post(_, _, _, _, completedAt) => Some(completedAt)
    case Redrive(_, _, now, _) => Some(now)
    case _ => None
  }

  /** The latest reading of the clock. */
  function Clock(run: seq<Step>): Option<Time> {
    if run == [] then None
    else if Stamp(Last(run)).Some? then Stamp(Last(run))
    else Clock(Before(run))
  }

  predicate Chronological(run: seq<Step>) {
    run == []
    || (&& Chronological(Before(run))
        && (Stamp(Last(run)).Some? && Clock(Before(run)).Some? ==> Clock(Before(run)).value <= Stamp(Last(run)).value))
  }

  /** Every outcome is recorded with the same backoff base. */
  predicate UsesBase(run: seq<Step>, base: real) {
    forall i | 0 <= i < |run| :: run[i].Record? ==> run[i].base == base
  }

  datatype LeaseMark = LeaseMark(at: Time, duration: Time, attempt: int)

  /** The latest lease of the row, unless a re-drive came after it. */
  function LatestLease(run: seq<Step>, id: nat): Option<LeaseMark> {
    if run == [] then None
    else
      var s, step := After(Before(run)), Last(run);
      if IsLease(s, step, id) then Some(LeaseMark(step.now, step.leaseSeconds, s.db.outbox[id].attemptCount + 1))
      else if IsRedrive(s, step, id) then None
      else LatestLease(Before(run), id)
  }

  /** What the latest lease fixes about the row and about the worker that still holds it. */
  ghost predicate Marked(s: System, id: nat, mark: LeaseMark, base: real) {
    && id in s.db.outbox
    && mark.attempt >= 1
    && var row := s.db.outbox[id];
       && row.attemptCount == mark.attempt
       && (row.state == IN_FLIGHT ==> row.leaseExpiresAt == Some(mark.at + mark.duration))
       && (row.state == PENDING ==> row.nextAttemptAt >= mark.at + Delay(mark.attempt, base, DEFAULT_CAP))
       && (var t := Ticket(id, mark.attempt);
           t in s.tasks && s.tasks[t].Answered? ==> s.tasks[t].completedAt >= mark.at)
  }

  lemma StepKeepsMark(s: System, step: Step, id: nat, mark: LeaseMark, base: real)
    requires Inv(s) && Marked(s, id, mark, base)
    requires !IsLease(s, step, id) && !IsRedrive(s, step, id)
    requires step.Record? ==> step.base == base
    requires step.Post? ==> step.completedAt >= mark.at
    ensures Marked(Apply(s, step), id, mark, base)
  {
    hide RowInv, Rely, DbInv;
    RowChangesBy(s, step, id);
    if IsOutcome(s, step, id) {
      assert TaskInv(s.db, step.ticket, s.tasks[step.ticket]);
    }
  }

  lemma {:induction false} ClockIsLatest(run: seq<Step>, id: nat)
    requires Chronological(run) && LatestLease(run, id).Some?
    ensures Clock(run).Some? && LatestLease(run, id).value.at <= Clock(run).value
  {
    var s, step := After(Before(run)), Last(run);
    if !IsLease(s, step, id) {
      ClockIsLatest(Before(run), id);
    }
  }

  lemma {:induction false} LatestLeaseIsMarked(run: seq<Step>, id: nat, base: real)
    requires Chronological(run) && UsesBase(run, base) && LatestLease(run, id).Some?
    ensures Marked(After(run), id, LatestLease(run, id).value, base)
  {
    hide RowInv, Rely, DbInv;
    var s, step := After(Before(run)), Last(run);
    RunKeepsInv(Before(run));
    if IsLease(s, step, id) {
      RowBounds(s.db, id);
    } else {
      LatestLeaseIsMarked(Before(run), id, base);
      ClockIsLatest(Before(run), id);
      assert step == run[|run| - 1];
      StepKeepsMark(s, step, id, LatestLease(run, id).value, base);
    }
  }

  /**
   Two consecutive leases of a row with no re-drive between them are at least the smaller of the earlier
   lease's duration and the backoff of its attempt apart.
   */
  lemma ConsecutiveLeasesAreSpaced(run: seq<Step>, next: Step, id: nat, base: real)
    requires Chronological(run + [next]) && UsesBase(run, base)
    requires LatestLease(run, id).Some? && IsLease(After(run), next, id)
    ensures var mark := LatestLease(run, id).value;
            && mark.attempt >= 1
            && next.now - mark.at >= Min(mark.duration, Delay(mark.attempt, base, DEFAULT_CAP))
  {
    hide RowInv, Rely, DbInv;
    assert Before(run + [next]) == run;
    LatestLeaseIsMarked(run, id, base);
  }
}
