/** Idempotent intake: one run per (tenant, key), also for callers that race for the key, then resumed to rest. */
module ControlIntake {
  import opened Wrappers
  import opened Evidence
  import opened ControlModel
  import opened ControlSystem
  import opened ControlInvariant
  import opened ControlTheorems
  import opened ControlRest
  import Session = ControlRepository
  import Service = ControlService
  import Acts = ControlActs

  type RunId = nat
  type IntakeKey = (string, string)  // tenant and idempotency key

  datatype KeyRow = KeyRow(payloadHash: Hash, runId: RunId)

  datatype StoredRun = StoredRun(tenant: string, requestHash: Hash, spine: Spine)

  datatype Tables = Tables(runs: map<RunId, StoredRun>, keys: map<IntakeKey, KeyRow>)

  const IDEMPOTENCY_KEY_CONFLICT := "IDEMPOTENCY_KEY_CONFLICT"
  const RUN_ID_TAKEN := "RUN_ID_TAKEN"

  /** Keys and runs correspond one to one: no key without its run, no run without a key, no run with two. */
  ghost predicate KeysInv(t: Tables) {
    && (forall k | k in t.keys :: KeyOk(t, k))
    && (forall k, l | k in t.keys && l in t.keys && t.keys[k].runId == t.keys[l].runId :: k == l)
    && (forall i | i in t.runs :: HasKey(t, i))
  }

  ghost predicate KeyOk(t: Tables, k: IntakeKey)
    requires k in t.keys
  {
    var row := t.keys[k];
    row.runId in t.runs && t.runs[row.runId].tenant == k.0 && t.runs[row.runId].requestHash == row.payloadHash
  }

  ghost predicate HasKey(t: Tables, i: RunId) {
    exists k :: k in t.keys && t.keys[k].runId == i
  }

  ghost predicate IntakeInv(t: Tables) {
    KeysInv(t) && forall i | i in t.runs :: SpineInv(t.runs[i].spine)
  }

  /** One run as others may move it on; a shadow run at rest is read the same ever after. */
  ghost predicate Moves(a: Spine, b: Spine) {
    Rely(a, b) && a.events <= b.events && KeepsRest(a, b)
  }

  /** Keys are never rebound and runs only move on. */
  ghost predicate Grew(a: Tables, b: Tables) {
    && (forall k | k in a.keys :: k in b.keys && b.keys[k] == a.keys[k])
    && (forall i | i in a.runs ::
          && i in b.runs && b.runs[i].tenant == a.runs[i].tenant && b.runs[i].requestHash == a.runs[i].requestHash
          && Moves(a.runs[i].spine, b.runs[i].spine))
  }

  lemma MovesIsReflexive(a: Spine)
    ensures Moves(a, a)
  {
  }

  lemma MovesIsTransitive(a: Spine, b: Spine, c: Spine)
    requires SpineInv(a) && SpineInv(b) && Moves(a, b) && Moves(b, c)
    ensures Moves(a, c)
  {
    hide SpineInv, Rely, KeepsRest;
    RelyTransitive(a, b, c);
    RestIsTransitive(a, b, c);
  }

  lemma GrewIsTransitive(a: Tables, b: Tables, c: Tables)
    requires IntakeInv(a) && IntakeInv(b) && Grew(a, b) && Grew(b, c)
    ensures Grew(a, c)
  {
    hide SpineInv, Moves, KeysInv;
    forall i | i in a.runs
      ensures Moves(a.runs[i].spine, c.runs[i].spine)
    {
      MovesIsTransitive(a.runs[i].spine, b.runs[i].spine, c.runs[i].spine);
    }
  }

  lemma GrewIsReflexive(a: Tables)
    ensures Grew(a, a)
  {
    hide Moves;
    forall i | i in a.runs
      ensures Moves(a.runs[i].spine, a.runs[i].spine)
    {
      MovesIsReflexive(a.runs[i].spine);
    }
  }

  datatype Intake = Intake(payloadHash: Hash, shadow: bool, reviewer: string, asOf: Time)

  /** What an intake under `key` with the fresh run id `id` answers, between the tables it finds and those it leaves. */
  ghost predicate Answers(a: Tables, b: Tables, key: IntakeKey, payloadHash: Hash, id: RunId, r: Result<RunId, string>) {
    if key in a.keys then
      r == (if a.keys[key].payloadHash == payloadHash then Ok(a.keys[key].runId) else Err(IDEMPOTENCY_KEY_CONFLICT))
    else
      match r
      case Ok(i) => key in b.keys && b.keys[key] == KeyRow(payloadHash, i)
      case Err(code) =>
        || (code == IDEMPOTENCY_KEY_CONFLICT && key in b.keys && b.keys[key].payloadHash != payloadHash)
        || (code == RUN_ID_TAKEN && id in b.runs)
  }

  /**
   Two intakes under one key, however far apart: once the first has its run, the second is given that run if it
   carries the same payload, and the conflict if not, whatever run id it brings.
   */
  lemma IntakeIsIdempotent(a: Tables, b: Tables, c: Tables, d: Tables, key: IntakeKey, p: Hash, q: Hash,
                           i: RunId, j: RunId, id: RunId, r: Result<RunId, string>)
    requires Grew(a, b) && Answers(a, b, key, p, i, Ok(id))
    requires Grew(b, c) && Answers(c, d, key, q, j, r)
    ensures r == if q == p then Ok(id) else Err(IDEMPOTENCY_KEY_CONFLICT)
  {
    hide Moves;
    assert key in b.keys && b.keys[key] == KeyRow(p, id);
  }

  class Repository {
    var runs: map<RunId, StoredRun>
    var keys: map<IntakeKey, KeyRow>

    constructor ()
      ensures Valid() && runs == map[] && keys == map[]
    {
      runs, keys := map[], map[];
    }

    ghost function Now(): Tables
      reads this
    {
      Tables(runs, keys)
    }

    ghost predicate Valid()
      reads this
    {
      IntakeInv(Now())
    }

    method OtherIntakes()
      requires Valid()
      modifies this
      ensures Valid() && Grew(old(Now()), Now())
    {
      GrewIsReflexive(Now());
    }

    /**
     Looks the key up; else inserts the run and then the key under a savepoint, and gives the run up again if
     another intake committed the key in between. `id` is the random run id.
     */
    method BeginIntake(tenant: string, key: string, intake: Intake, id: RunId) returns (r: Result<RunId, string>, created: bool)
      requires Valid()
      modifies this
      ensures Valid() && Grew(old(Now()), Now())
      ensures Answers(old(Now()), Now(), (tenant, key), intake.payloadHash, id, r)
      ensures r.Ok? ==> r.value in runs && (tenant, key) in keys && keys[(tenant, key)] == KeyRow(intake.payloadHash, r.value)
      ensures created ==> r == Ok(id) && (tenant, key) !in old(keys) && id !in old(runs)
                          && runs[id] == StoredRun(tenant, intake.payloadHash, Created(intake.shadow, intake.reviewer, intake.asOf))
      ensures created <==> r == Ok(id) && id !in old(runs)
      ensures (tenant, key) in old(keys) ==> !created
      ensures r.Err? ==> r.error in {IDEMPOTENCY_KEY_CONFLICT, RUN_ID_TAKEN}
      ensures r == Err(IDEMPOTENCY_KEY_CONFLICT) ==>
                && (tenant, key) in keys && keys[(tenant, key)].payloadHash != intake.payloadHash
                && keys[(tenant, key)].runId in runs && EndsInRefusal(runs[keys[(tenant, key)].runId].spine)
    {
      hide SpineInv, IntakeInv, Grew;
      var k := (tenant, key);
      GrewIsReflexive(Now());
      if k !in keys {
        OtherIntakes();
        ghost var before := Now();
        var savepoint := (runs, keys);
        if id in runs {
          return Err(RUN_ID_TAKEN), false;  // the primary key raises
        }
        var run := StoredRun(tenant, intake.payloadHash, Created(intake.shadow, intake.reviewer, intake.asOf));
        runs := runs[id := run];
        if k !in keys {
          keys := keys[k := KeyRow(intake.payloadHash, id)];
          CreatedIsValid(intake.shadow, intake.reviewer, intake.asOf);
          CreatedIsSound(before, k, id, run);
          GrewIsTransitive(old(Now()), before, Now());
          KeysStay(old(Now()), before);
          return Ok(id), true;
        }
        runs, keys := savepoint.0, savepoint.1;  // the race is lost
      }
      created := false;
      ghost var before := Now();
      KeyHasItsRun(before, k);
      var row := keys[k];
      var run := runs[row.runId];
      if row.payloadHash != intake.payloadHash {
        var refused := WithEvent(run.spine, Rejection(INTAKE_REJECTED, run.spine.run.state, IDEMPOTENCY_KEY_CONFLICT));
        RefusalMovesOn(run.spine, run.spine.run.state);
        RunMovesOn(before, row.runId, refused);
        runs := runs[row.runId := run.(spine := refused)];
        GrewIsTransitive(old(Now()), before, Now());
        KeysStay(old(Now()), before);
        return Err(IDEMPOTENCY_KEY_CONFLICT), false;
      }
      KeysStay(old(Now()), before);
      r := Ok(row.runId);
    }

    /** `_resume` on the run of an intake, by a session of its own. */
    method Resume(id: RunId, evidenceTool: Tool -> Outcome, reasoning: seq<Evidence> -> Outcome, clock: nat -> Time)
        returns (row: RunRow, ghost did: seq<Acts.Act>)
      requires Valid() && id in runs
      requires forall t | t in EVIDENCE_TOOLS :: WellTyped(t, evidenceTool(t))
      requires forall b :: WellTyped(REASONING_TOOL, reasoning(b))
      modifies this
      ensures Valid() && Grew(old(Now()), Now()) && keys == old(keys) && runs.Keys == old(runs).Keys
      ensures !Working(row.state) && !Working(runs[id].spine.run.state)
      ensures Acts.Rightful(Acts.Ports(evidenceTool, reasoning, clock), did, runs[id].spine)
      ensures Service.EndsAt(did, row)
      ensures !Working(old(runs)[id].spine.run.state) ==> did == []
      ensures SameConfig(old(runs)[id].spine.run, runs[id].spine.run)
    {
      hide SpineInv, KeysInv, Moves, PcInv, Session.Continues, Acts.Rightful, Service.EndsAt;
      var run := runs[id];
      StoredRunIsSound(Now(), id);
      var session := new Session.Repository.At(run.spine);
      var service := new Service.InvestigationService(session, evidenceTool, reasoning, clock);
      Service.LatestIsReady(run.spine);
      var r;
      r, did := service.Resume(run.spine.run);
      row := r.value;
      RestStays(session.spine, row);
      SessionMoves(run.spine, session.spine);
      MovesKeepConfig(run.spine, session.spine);
      RunMovesOn(Now(), id, session.spine);
      runs := runs[id := run.(spine := session.spine)];
    }
  }

  lemma StoredRunIsSound(t: Tables, id: RunId)
    requires IntakeInv(t) && id in t.runs
    ensures SpineInv(t.runs[id].spine)
  {
  }

  lemma RestStays(sp: Spine, row: RunRow)
    requires SpineInv(sp) && PcInv(sp, Ready(row)) && !Working(row.state)
    ensures !Working(sp.run.state)
  {
  }

  /** A session that leaves a run at rest alone moves it as others may see it move. */
  lemma SessionMoves(a: Spine, b: Spine)
    requires Session.Continues(a, b, {}) && (!Working(a.run.state) ==> b == a)
    ensures Moves(a, b)
  {
    hide Rely;
  }

  /** What a run is created with. */
  predicate SameConfig(a: RunRow, b: RunRow) {
    a.shadow == b.shadow && a.assignedReviewer == b.assignedReviewer && a.asOf == b.asOf
  }

  lemma MovesKeepConfig(a: Spine, b: Spine)
    requires Moves(a, b)
    ensures SameConfig(a.run, b.run)
  {
    hide KeepsRest;
  }

  /** The run's log ends in the refusal. */
  ghost predicate EndsInRefusal(sp: Spine) {
    sp.events != [] && exists state :: sp.events[|sp.events| - 1] == Rejection(INTAKE_REJECTED, state, IDEMPOTENCY_KEY_CONFLICT)
  }

  lemma RefusalMovesOn(sp: Spine, state: RunState)
    requires SpineInv(sp)
    ensures var after := WithEvent(sp, Rejection(INTAKE_REJECTED, state, IDEMPOTENCY_KEY_CONFLICT));
            SpineInv(after) && Moves(sp, after) && EndsInRefusal(after)
  {
    hide SpineInv, Rely, ViewOf;
    EventMovesOn(sp, Rejection(INTAKE_REJECTED, state, IDEMPOTENCY_KEY_CONFLICT));
    RejectionKeepsView(sp, INTAKE_REJECTED, state, IDEMPOTENCY_KEY_CONFLICT);
  }

  lemma KeysStay(a: Tables, b: Tables)
    requires Grew(a, b)
    ensures forall k | k in a.keys :: k in b.keys && b.keys[k] == a.keys[k]
    ensures forall i | i in a.runs :: i in b.runs
  {
  }

  lemma KeyHasItsRun(t: Tables, k: IntakeKey)
    requires IntakeInv(t) && k in t.keys
    ensures t.keys[k].runId in t.runs && t.runs[t.keys[k].runId].requestHash == t.keys[k].payloadHash
    ensures SpineInv(t.runs[t.keys[k].runId].spine)
  {
    hide SpineInv, HasKey;
    assert KeyOk(t, k);
  }

  lemma CreatedIsSound(t: Tables, k: IntakeKey, id: RunId, run: StoredRun)
    requires IntakeInv(t) && k !in t.keys && id !in t.runs && run.tenant == k.0 && SpineInv(run.spine)
    ensures var after := Tables(t.runs[id := run], t.keys[k := KeyRow(run.requestHash, id)]);
            IntakeInv(after) && Grew(t, after)
  {
    hide Moves, SpineInv;
    CreatedKeys(t, k, id, run);
    hide KeysInv;
    forall i | i in t.runs
      ensures Moves(t.runs[i].spine, t.runs[i].spine)
    {
      MovesIsReflexive(t.runs[i].spine);
    }
  }

  lemma CreatedKeys(t: Tables, k: IntakeKey, id: RunId, run: StoredRun)
    requires KeysInv(t) && k !in t.keys && id !in t.runs && run.tenant == k.0
    ensures KeysInv(Tables(t.runs[id := run], t.keys[k := KeyRow(run.requestHash, id)]))
  {
    var after := Tables(t.runs[id := run], t.keys[k := KeyRow(run.requestHash, id)]);
    assert forall l | l in t.keys :: KeyOk(t, l);
    forall i | i in after.runs
      ensures HasKey(after, i)
    {
      if i == id {
        assert after.keys[k].runId == i;
      } else {
        assert HasKey(t, i);
        var l :| l in t.keys && t.keys[l].runId == i;
        assert after.keys[l].runId == i;
      }
    }
  }

  lemma CreatedIsValid(shadow: bool, reviewer: string, asOf: Time)
    ensures SpineInv(Created(shadow, reviewer, asOf))
  {
  }

  /** One run moves on; keys and all other runs are left alone. */
  lemma RunMovesOn(t: Tables, id: RunId, sp: Spine)
    requires IntakeInv(t) && id in t.runs && SpineInv(sp) && Moves(t.runs[id].spine, sp)
    ensures var after := Tables(t.runs[id := t.runs[id].(spine := sp)], t.keys);
            IntakeInv(after) && Grew(t, after)
  {
    hide Moves, SpineInv;
    MovedKeys(t, id, sp);
    hide KeysInv;
    forall i | i in t.runs
      ensures Moves(t.runs[i].spine, t.runs[i].spine)
    {
      MovesIsReflexive(t.runs[i].spine);
    }
  }

  lemma MovedKeys(t: Tables, id: RunId, sp: Spine)
    requires KeysInv(t) && id in t.runs
    ensures KeysInv(Tables(t.runs[id := t.runs[id].(spine := sp)], t.keys))
  {
    var after := Tables(t.runs[id := t.runs[id].(spine := sp)], t.keys);
    assert forall k | k in t.keys :: KeyOk(t, k);
    forall i | i in after.runs
      ensures HasKey(after, i)
    {
      assert HasKey(t, i);
    }
  }

  // ------------------------------------------------- the bound on the others

  lemma StepLogs(s: System, step: Step)
    ensures s.spine.events <= Apply(s, step).spine.events
  {
    hide Advanced, ServiceReviewed;
    match step
    case Advance(c, now) =>
      if CanAdvance(s, c) {
        Session.AdvanceLogs(s, c, now);
      }
    case Decide(r, stale) => Session.ReviewLogs(s.spine, r, stale);
    case _ =>
  }

  /**
   Whatever callers, crashes, reviews and rejections do to one of the runs, in any reachable state of that run,
   is something that `OtherIntakes` allows; so is another intake, by its own contract.
   */
  lemma OthersGrow(t: Tables, id: RunId, g: Config, run: seq<Step>, step: Step)
    requires IntakeInv(t) && id in t.runs && t.runs[id].spine == After(g, run).spine
    ensures var after := Tables(t.runs[id := t.runs[id].(spine := Apply(After(g, run), step).spine)], t.keys);
            IntakeInv(after) && Grew(t, after)
  {
    var s := After(g, run);
    RunKeepsInv(g, run);
    RunKeepsStop(g, run);
    StepKeepsInv(s, step);
    StepKeepsRest(s, step);
    StepLogs(s, step);
    SpineHolds(Apply(s, step));
    hide Inv, StopInv, SpineInv, Rely, KeepsRest, After, Apply, IntakeInv, Grew;
    assert Moves(s.spine, Apply(s, step).spine);
    RunMovesOn(t, id, Apply(s, step).spine);
  }
}
