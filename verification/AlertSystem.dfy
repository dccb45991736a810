/** Alert recording next to everything that workers, operators and crashes do to the outbox, over whole runs. */
module AlertSystem {
  import opened Wrappers
  import opened Identity
  import opened OutboxTables
  import opened OutboxOperations
  import opened OutboxInvariant
  import H = AlertHistory
  import S = OutboxSystem
  import R = AlertRepository

  datatype Config = Config(delivery: H.Delivery, destinationHost: string)

  datatype System = System(rows: seq<H.AlertEvent>, outboxes: S.System, nextOutboxId: nat)

  datatype Step = RecordAlert(request: H.Request) | Other(step: S.Step)

  function Start(): System {
    System([], S.Start, 0)
  }

  predicate Wellformed(s: System, r: H.Request) {
    1 <= |r.tenantId| <= 100 && |s.rows| + 1 < 0x8000_0000_0000_0000
  }

  function WithDb(s: S.System, db: Db): S.System {
    S.System(db, s.tasks, s.wire)
  }

  /** What `record` leaves behind: nothing, the evaluation alone, or the evaluation with its delivery intent. */
  function RecordStep(g: Config, s: System, r: H.Request): System {
    var done := H.Record(H.History(s.rows, []), g.delivery, r);
    if !Wellformed(s, r) || done.Err? || done.value.rows == s.rows then s
    else
      var event, db := H.NewEvent(s.rows, r), s.outboxes.db;
      if g.delivery.Enabled? && H.Lifecycle(event.transition) then
        var intent := R.IntentFor(event, |s.rows| + 1, g.destinationHost);
        System(s.rows + [event],
               WithDb(s.outboxes, Evaluated(db, s.nextOutboxId, intent, g.delivery.maxAttempts)), s.nextOutboxId + 1)
      else
        System(s.rows + [event],
               WithDb(s.outboxes, db.(evaluations := db.evaluations[|s.rows| + 1 := R.EvaluationOf(event)])), s.nextOutboxId)
  }

  /** Evaluations are appended by recording alone; every other outbox step may come at any point. */
  function Apply(g: Config, s: System, step: Step): System {
    match step
    case RecordAlert(r) => RecordStep(g, s, r)
    case Other(other) => if other.Evaluate? then s else s.(outboxes := S.Apply(s.outboxes, other))
  }

  function After(g: Config, run: seq<Step>): System {
    if run == [] then Start() else Apply(g, After(g, run[..|run| - 1]), run[|run| - 1])
  }

  ghost predicate Inv(g: Config, s: System) {
    && S.Inv(s.outboxes)
    && R.SameEvaluations(s.rows, s.outboxes.db.evaluations)
    && R.Linked(g.delivery, g.destinationHost, s.rows, s.outboxes.db.outbox)
    && (forall id | id in s.outboxes.db.outbox :: id < s.nextOutboxId)
  }

  /** An appended evaluation without an intent. */
  lemma QuietAppendKeepsInv(g: Config, s: System, event: H.AlertEvent)
    requires Inv(g, s) && !(g.delivery.Enabled? && H.Lifecycle(event.transition))
    ensures var db := s.outboxes.db;
            Inv(g, System(s.rows + [event],
                          WithDb(s.outboxes, db.(evaluations := db.evaluations[|s.rows| + 1 := R.EvaluationOf(event)])),
                          s.nextOutboxId))
  {
    hide DbInv, Rely, S.TaskInv, R.SameEvaluations, R.Linked;
    var db := s.outboxes.db;
    R.AppendKeepsSame(s.rows, db.evaluations, event);
    R.AppendKeepsInv(db, |s.rows| + 1, R.EvaluationOf(event));
    R.AppendKeepsLink(g.delivery, g.destinationHost, s.rows, event, db.outbox, db.outbox, 0);
    S.TasksSurvive(s.outboxes, db.(evaluations := db.evaluations[|s.rows| + 1 := R.EvaluationOf(event)]));
  }

  /** An appended lifecycle evaluation with its delivery intent. */
  lemma NotifiedAppendKeepsInv(g: Config, s: System, event: H.AlertEvent)
    requires Inv(g, s) && g.delivery.Enabled? && H.Lifecycle(event.transition) && 1 <= g.delivery.maxAttempts <= 100
    requires 1 <= |event.fingerprint.tenantId| <= 100 && |s.rows| + 1 < 0x8000_0000_0000_0000
    requires 1 <= |g.destinationHost| <= 253
    ensures var intent := R.IntentFor(event, |s.rows| + 1, g.destinationHost);
            Inv(g, System(s.rows + [event],
                          WithDb(s.outboxes, Evaluated(s.outboxes.db, s.nextOutboxId, intent, g.delivery.maxAttempts)),
                          s.nextOutboxId + 1))
  {
    hide DbInv, Rely, S.TaskInv, R.SameEvaluations, R.Linked, DeliveryIdempotencyKey, R.FingerprintDigest, R.TellsOf;
    var db := s.outboxes.db;
    var intent := R.IntentFor(event, |s.rows| + 1, g.destinationHost);
    var after := Evaluated(db, s.nextOutboxId, intent, g.delivery.maxAttempts);
    R.AppendKeepsSame(s.rows, db.evaluations, event);
    EvaluatedKeepsInv(db, s.nextOutboxId, intent, g.delivery.maxAttempts);
    R.IntentTells(event, |s.rows| + 1, g.destinationHost);
    R.AppendKeepsLink(g.delivery, g.destinationHost, s.rows, event, db.outbox, after.outbox, s.nextOutboxId);
    S.TasksSurvive(s.outboxes, after);
  }

  lemma RecordAppends(g: Config, s: System, r: H.Request)
    ensures var done := H.Record(H.History(s.rows, []), g.delivery, r);
            done.Ok? && done.value.rows != s.rows ==>
              var event := H.NewEvent(s.rows, r);
              && done.value.rows == s.rows + [event] && event.fingerprint.tenantId == r.tenantId
              && (g.delivery.Enabled? && H.Lifecycle(event.transition) ==> 1 <= g.delivery.maxAttempts <= 100)
  {
    hide H.NextState, H.LatestState;
  }

  lemma RecordKeepsInv(g: Config, s: System, r: H.Request)
    requires Inv(g, s) && 1 <= |g.destinationHost| <= 253
    ensures Inv(g, RecordStep(g, s, r))
  {
    hide Inv, H.Record, H.NewEvent, Evaluated, R.IntentFor, R.EvaluationOf;
    RecordAppends(g, s, r);
    if RecordStep(g, s, r) != s {
      var event := H.NewEvent(s.rows, r);
      if g.delivery.Enabled? && H.Lifecycle(event.transition) {
        NotifiedAppendKeepsInv(g, s, event);
      } else {
        QuietAppendKeepsInv(g, s, event);
      }
    }
  }

  lemma OtherKeepsInv(g: Config, s: System, step: S.Step)
    requires Inv(g, s) && !step.Evaluate?
    ensures Inv(g, s.(outboxes := S.Apply(s.outboxes, step)))
  {
    hide DbInv, Rely, S.TaskInv, R.SameEvaluations, R.Linked, S.Apply, S.WritesOf, S.Inv;
    S.StepKeepsInv(s.outboxes, step);
    StepIsRely(s.outboxes, step);
    OtherStepsAddNothing(s.outboxes, step);
    R.MovesKeepLink(g.delivery, g.destinationHost, s.rows, s.outboxes.db, S.Apply(s.outboxes, step).db);
  }

  lemma StepIsRely(s: S.System, step: S.Step)
    requires S.Inv(s)
    ensures Rely(s.db, S.Apply(s, step).db)
  {
    hide *;
    S.StepIsSound(s, step);
  }

  lemma OtherStepsAddNothing(s: S.System, step: S.Step)
    requires !step.Evaluate?
    ensures S.Apply(s, step).db.outbox.Keys == s.db.outbox.Keys
    ensures S.Apply(s, step).db.evaluations == s.db.evaluations
  {
    match step
    case Record(t, base) => OutcomeAddsNothing(s, t, base);
    case LeaseRow(id, workerId, now, leaseSeconds) => hide LeasedRow, LeaseOf;
    case Redrive(tenantId, id, now, additional) => hide RedrivenRow, NewCeiling;
    case _ =>
  }

  lemma OutcomeAddsNothing(s: S.System, t: S.Ticket, base: real)
    ensures var db := S.Apply(s, S.Record(t, base)).db;
            db.outbox.Keys == s.db.outbox.Keys && db.evaluations == s.db.evaluations
  {
    hide LedgerEntry, SettledRow, Evidence;
  }

  lemma {:induction false} RunKeepsInv(g: Config, run: seq<Step>)
    requires 1 <= |g.destinationHost| <= 253
    ensures Inv(g, After(g, run))
  {
    hide Inv, RecordStep, S.Apply;
    if run == [] {
      StartHolds(g);
    } else {
      var s := After(g, run[..|run| - 1]);
      RunKeepsInv(g, run[..|run| - 1]);
      match run[|run| - 1]
      case RecordAlert(r) => RecordKeepsInv(g, s, r);
      case Other(step) =>
        if !step.Evaluate? {
          OtherKeepsInv(g, s, step);
        }
    }
  }

  lemma StartHolds(g: Config)
    ensures Inv(g, Start())
  {
  }

  /**
   Intents match the lifecycle events one to one, on the tables and over any run: with delivery enabled exactly one
   outbox row has the id of each FIRED or RESOLVED evaluation, and no other id has any, whatever leases, outcomes,
   re-drives and crashes come in between. Each row tells its own evaluation, under the evaluation's delivery key.
   */
  lemma OutboxMatchesLifecycle(g: Config, run: seq<Step>, e: nat)
    requires 1 <= |g.destinationHost| <= 253
    ensures var s := After(g, run);
            |R.RowsFor(s.outboxes.db.outbox, e)|
            == if g.delivery.Enabled? && 1 <= e <= |s.rows| && H.Lifecycle(s.rows[e - 1].transition) then 1 else 0
    ensures var s := After(g, run);
            forall id | id in s.outboxes.db.outbox && s.outboxes.db.outbox[id].intent.evaluationId == e ::
              1 <= e <= |s.rows| && R.TellsOf(s.outboxes.db.outbox[id].intent, s.rows[e - 1], e, g.destinationHost)
  {
    RunKeepsInv(g, run);
    hide DbInv, S.TaskInv, R.SameEvaluations, R.Linked, After, R.TellsOf;
    R.LinkCounts(g.delivery, g.destinationHost, After(g, run).rows, After(g, run).outboxes.db, e);
  }

  /** The requests of a run that the tables have room for. */
  function Requests(g: Config, run: seq<Step>): seq<H.Request> {
    if run == [] then []
    else
      var last := run[|run| - 1];
      Requests(g, run[..|run| - 1])
      + if last.RecordAlert? && Wellformed(After(g, run[..|run| - 1]), last.request) then [last.request] else []
  }

  lemma RecordStepRows(g: Config, s: System, r: H.Request, intents: seq<nat>)
    ensures var done := H.Record(H.History(s.rows, intents), g.delivery, r);
            RecordStep(g, s, r).rows
            == if Wellformed(s, r) && done.Ok? then done.value.rows else s.rows
  {
    hide H.NewEvent, H.UsedKey, H.UsedPayload, H.UsedBoth, Evaluated, R.IntentFor, R.EvaluationOf;
  }

  lemma RecordedOneMore(d: H.Delivery, rs: seq<H.Request>, r: H.Request)
    ensures var before := H.Recorded(d, rs);
            var done := H.Record(before, d, r);
            H.Recorded(d, rs + [r]) == if done.Ok? then done.value else before
  {
    hide H.Record;
    assert (rs + [r])[..|rs|] == rs;
  }

  /** The evaluations of a run are the history of its requests, so all that holds of histories holds of its rows. */
  lemma {:induction false} RowsAreTheHistory(g: Config, run: seq<Step>)
    ensures After(g, run).rows == H.Recorded(g.delivery, Requests(g, run)).rows
  {
    if run != [] {
      var before := run[..|run| - 1];
      RowsAreTheHistory(g, before);
      hide H.Record, H.Recorded, RecordStep, S.Apply;
      var last, rs := run[|run| - 1], Requests(g, before);
      if last.RecordAlert? {
        RecordStepRows(g, After(g, before), last.request, H.Recorded(g.delivery, rs).intents);
        RecordedOneMore(g.delivery, rs, last.request);
        assert H.History(After(g, before).rows, H.Recorded(g.delivery, rs).intents) == H.Recorded(g.delivery, rs);
      }
      assert rs + [] == rs;
    }
  }
}
