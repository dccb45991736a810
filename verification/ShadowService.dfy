/** Shadow processing: checks, claim, nested intake, analysis and completion, all under one claim. */
module ShadowService {
  import opened Wrappers
  import opened ShadowSystem
  import Identity
  import Evidence
  import ControlModel
  import ControlRest
  import ControlSystem
  import ControlIntake
  import ShadowRepository
  import Acts = ControlActs

  const PROCESSOR_VERSION := "m2-shadow-processor-v1.1"

  datatype Principal = Principal(tenant: string, operator: bool)

  datatype Case = Case(tenant: string, caseId: string, caseVersion: string, input: string, rest: string)

  datatype ShadowResult = ShadowResult(id: ShadowId, row: ShadowRow, replay: bool)

  function PayloadOf(c: Case): Payload {
    Payload(c.tenant, c.caseId, c.caseVersion, PROCESSOR_VERSION, c.input, c.rest)
  }

  /** The checks that come before anything is read or locked. */
  function Refusal(p: Principal, c: Case, casePack: string, manifest: string, key: string, execute: bool): Option<string> {
    if execute then Some("SHADOW_EXECUTION_FORBIDDEN")
    else if p.tenant != c.tenant then Some("NOT_FOUND")
    else if !p.operator then Some("FORBIDDEN")
    else if |key| < 1 || |key| > 200 then Some("INVALID_IDEMPOTENCY_KEY")
    else if manifest != casePack then Some("SHADOW_CASE_PACK_MISMATCH")
    else None
  }

  /** The nested intake: the case's own request, in shadow mode, under the key of the shadow run. */
  function NestedIntake(c: Payload, reviewer: string, asOf: Time): ControlIntake.Intake {
    ControlIntake.Intake(Sha256([c.input]), true, reviewer, asOf)
  }

  predicate BoundElsewhere(keys: map<ControlIntake.IntakeKey, ControlIntake.KeyRow>, k: IntakeKey, p: Payload) {
    k in keys && keys[k].payloadHash != Sha256([p.input])
  }

  /** What `_actual` and `compare` make of a run at rest, and how they may fail. */
  type Analysis = ControlRest.View -> Result<string, string>

  ghost predicate OwnErrors(analyse: Analysis) {
    forall v :: analyse(v).Err? ==> analyse(v).error !in {"SHADOW_COMPLETION_CONFLICT", "IDEMPOTENCY_KEY_CONFLICT"}
  }

  /** A shadow investigation at rest is analysed the same by every later attempt, whatever others do in between. */
  lemma RestartsAnalyseTheSame(a: ControlIntake.Tables, b: ControlIntake.Tables, id: ControlIntake.RunId, analyse: Analysis)
    requires ControlIntake.Grew(a, b) && id in a.runs && a.runs[id].spine.run.shadow
    requires !ControlSystem.Working(a.runs[id].spine.run.state)
    ensures id in b.runs
    ensures analyse(ControlRest.ViewOf(b.runs[id].spine)) == analyse(ControlRest.ViewOf(a.runs[id].spine))
  {
    hide ControlRest.ViewOf;
    assert ControlIntake.Moves(a.runs[id].spine, b.runs[id].spine);
  }

  /** Nothing of a case is lost in its payload, so what identifies a shadow run is the whole case. */
  lemma PayloadIsTheCase(c: Case, d: Case)
    ensures PayloadOf(c) == PayloadOf(d) <==> c == d
    ensures PayloadOf(c).tenant == c.tenant && PayloadOf(c).input == c.input && PayloadOf(c).processor == "m2-shadow-processor-v1.1"
  {
  }

  /** A request goes on exactly if an operator of the case's tenant brings a case of this pack, a key, and no order to execute. */
  lemma GoesOnIff(p: Principal, c: Case, casePack: string, manifest: string, key: string, execute: bool)
    ensures Refusal(p, c, casePack, manifest, key, execute) == None
            <==> !execute && p == Principal(c.tenant, true) && 1 <= |key| <= 200 && casePack == manifest
    ensures execute ==> Refusal(p, c, casePack, manifest, key, execute) == Some("SHADOW_EXECUTION_FORBIDDEN")
    ensures !execute && p.tenant != c.tenant ==> Refusal(p, c, casePack, manifest, key, execute) == Some("NOT_FOUND")
  {
  }

  /** No review of the run will ever be anything but refused. */
  ghost predicate Unreviewable(sp: ControlModel.Spine) {
    forall r: ControlModel.Review :: ControlModel.ReviewError(sp, r) == Some("SHADOW_REVIEW_FORBIDDEN")
  }

  class ShadowService {
    const repository: ShadowRepository.Repository
    const investigations: ControlIntake.Repository
    const manifest: string
    const evidenceTool: Evidence.Tool -> ControlSystem.Outcome
    const reasoning: seq<Evidence.Evidence> -> ControlSystem.Outcome
    const reviewer: string

    constructor (repository: ShadowRepository.Repository, investigations: ControlIntake.Repository, manifest: string,
                 evidenceTool: Evidence.Tool -> ControlSystem.Outcome,
                 reasoning: seq<Evidence.Evidence> -> ControlSystem.Outcome, reviewer: string)
      ensures this.repository == repository && this.investigations == investigations && this.manifest == manifest
      ensures this.evidenceTool == evidenceTool && this.reasoning == reasoning && this.reviewer == reviewer
    {
      this.repository, this.investigations, this.manifest := repository, investigations, manifest;
      this.evidenceTool, this.reasoning, this.reviewer := evidenceTool, reasoning, reviewer;
    }

    ghost predicate Adapters() {
      && (forall t | t in Evidence.EVIDENCE_TOOLS :: ControlSystem.WellTyped(t, evidenceTool(t)))
      && (forall b :: ControlSystem.WellTyped(Evidence.REASONING_TOOL, reasoning(b)))
    }

    ghost predicate Ready()
      reads repository, investigations
    {
      repository.Valid() && repository.held == {} && investigations.Valid() && Adapters()
    }

    function Ports(clock: nat -> Time): Acts.Ports {
      Acts.Ports(evidenceTool, reasoning, clock)
    }

    /**
     The investigation under the key of this shadow run, for this payload, at rest; if this call created it, it is in
     shadow mode, for the tenant's reviewer and cut-off time, and can never be reviewed.
     */
    ghost predicate NestedRun(i: ControlIntake.RunId, payload: Payload, id: ShadowId, isNew: bool, asOf: Time)
      reads investigations
    {
      && i in investigations.runs
      && var sp := investigations.runs[i].spine;
         && !ControlSystem.Working(sp.run.state)
         && ShadowKey(payload.tenant, id) in investigations.keys
         && investigations.keys[ShadowKey(payload.tenant, id)] == ControlIntake.KeyRow(Sha256([payload.input]), i)
         && (isNew ==> sp.run.shadow && sp.run.assignedReviewer == reviewer && sp.run.asOf == asOf && Unreviewable(sp))
    }

    /** Why there is no nested investigation to go on with. */
    ghost predicate NotNested(error: string, payload: Payload, id: ShadowId, newRun: ControlIntake.RunId)
      reads investigations
    {
      || (error == "RUN_ID_TAKEN" && newRun in investigations.runs)
      || (error == "IDEMPOTENCY_KEY_CONFLICT" && BoundElsewhere(investigations.keys, ShadowKey(payload.tenant, id), payload))
    }

    /**
     However it ends, no lock is left behind: the two keys of the request are taken and given back. A result is
     always that of the one finished row of this very payload, and a claimed run is never found finished by somebody
     else. An error is that of the first check, a conflict with a row of another payload, the reason why there is no
     nested investigation, or the failure of its analysis.
     */
    method Process(p: Principal, c: Case, casePack: string, key: string, execute: bool, asOf: Time,
                   newRun: ControlIntake.RunId, clock: nat -> Time, analyse: Analysis)
        returns (r: Result<ShadowResult, string>, ghost nested: Option<ControlIntake.RunId>, ghost did: seq<Acts.Act>)
      requires Ready() && OwnErrors(analyse)
      modifies repository, investigations
      ensures Ready()
      ensures ShadowRepository.Continues(repository.hash, old(repository.Now()), repository.Now(), {})
      ensures ControlIntake.Grew(old(investigations.Now()), investigations.Now())
      ensures Refusal(p, c, casePack, manifest, key, execute).Some? ==>
                r == Err(Refusal(p, c, casePack, manifest, key, execute).value)
                && repository.Now() == old(repository.Now()) && investigations.Now() == old(investigations.Now())
                && repository.trace == old(repository.trace)
      ensures Refusal(p, c, casePack, manifest, key, execute) == None ==>
                var keys := Keys(repository.hash, Request(key, PayloadOf(c)));
                repository.trace == old(repository.trace) + ShadowRepository.Taken(keys) + ShadowRepository.Given(keys)
      ensures r.Ok? ==>
                && r.value.id in repository.rows && repository.rows[r.value.id] == r.value.row
                && r.value.row.payload == PayloadOf(c) && r.value.row.status.Finished?
      ensures r.Ok? ==> (r.value.replay <==> nested == None)
      ensures r.Ok? && !r.value.replay ==> Analysed(repository.rows[r.value.id].status, analyse)
      ensures r.Ok? && !r.value.replay ==>
                && nested == Some(r.value.row.status.investigation)
                && NestedRun(nested.value, PayloadOf(c), r.value.id, nested.value == newRun && newRun !in old(investigations.runs), asOf)
      ensures r.Ok? && !r.value.replay ==>
                repository.events != [] && repository.events[|repository.events| - 1] == Event(r.value.id, SHADOW_RUN_COMPLETED)
      ensures nested.Some? ==>
                && nested.value in investigations.runs
                && Acts.Rightful(Ports(clock), did, investigations.runs[nested.value].spine)
      ensures r.Err? && Refusal(p, c, casePack, manifest, key, execute) == None && nested == None ==>
                || (r.error in {"SHADOW_IDENTITY_CONFLICT", "SHADOW_IDEMPOTENCY_CONFLICT"}
                    && ConflictsWithARow(repository.rows, Request(key, PayloadOf(c))))
                || exists id :: id in repository.rows && repository.rows[id].payload == PayloadOf(c)
                                && NotNested(r.error, PayloadOf(c), id, newRun)
      ensures r.Err? && nested.Some? ==>
                && analyse(ControlRest.ViewOf(investigations.runs[nested.value].spine)) == Err(r.error)
                && exists id :: id in repository.rows && repository.rows[id].payload == PayloadOf(c)
                                && NestedRun(nested.value, PayloadOf(c), id,
                                             nested.value == newRun && newRun !in old(investigations.runs), asOf)
      ensures r != Err("SHADOW_COMPLETION_CONFLICT")
    {
      hide ShadowRepository.Continues, ControlIntake.Grew, ControlIntake.IntakeInv, UniqueRows, Keys, Matching, Matches,
           ShadowRepository.Taken, ShadowRepository.Given, NestedRun, NotNested, Analysed, Acts.Rightful, ControlRest.ViewOf;
      nested, did := None, [];
      var refusal := Refusal(p, c, casePack, manifest, key, execute);
      ShadowRepository.ContinuesIsReflexive(repository.hash, repository.Now(), {});
      ControlIntake.GrewIsReflexive(investigations.Now());
      if refusal.Some? {
        return Err(refusal.value), None, [];
      }
      var payload := PayloadOf(c);
      var begun, claim := repository.BeginOrObserve(Request(key, payload));
      if begun.Err? {
        return Err(begun.error), None, [];
      }
      var id := begun.value;
      if claim == null {
        return Ok(ShadowResult(id, repository.rows[id], true)), None, [];
      }
      ghost var claimed := repository.Now();
      r, nested, did := UnderClaim(Request(key, payload), id, claim, asOf, newRun, clock, analyse);
      ShadowRepository.ContinuesIsTransitive(repository.hash, old(repository.Now()), claimed, repository.Now(), {}, {});
    }

    /** The stored output is the analysis of the investigation it names, which is at rest. */
    ghost predicate Analysed(status: Status, analyse: Analysis)
      reads investigations
      requires status.Finished?
    {
      && status.investigation in investigations.runs
      && var sp := investigations.runs[status.investigation].spine;
         !ControlSystem.Working(sp.run.state) && analyse(ControlRest.ViewOf(sp)) == Ok(status.output)
    }

    /** The nested intake, in shadow mode, and its investigation resumed to rest. */
    method Investigate(payload: Payload, id: ShadowId, asOf: Time, newRun: ControlIntake.RunId, clock: nat -> Time)
        returns (r: Result<ControlIntake.RunId, string>, ghost did: seq<Acts.Act>)
      requires investigations.Valid() && Adapters()
      modifies investigations
      ensures investigations.Valid() && ControlIntake.Grew(old(investigations.Now()), investigations.Now())
      ensures BoundElsewhere(old(investigations.keys), ShadowKey(payload.tenant, id), payload) ==>
                r == Err("IDEMPOTENCY_KEY_CONFLICT")
      ensures r.Err? ==> NotNested(r.error, payload, id, newRun)
      ensures r.Ok? ==>
                && NestedRun(r.value, payload, id, r.value == newRun && newRun !in old(investigations.runs), asOf)
                && Acts.Rightful(Ports(clock), did, investigations.runs[r.value].spine)
    {
      hide ControlIntake.Grew, ControlIntake.IntakeInv, ControlIntake.EndsInRefusal, Identity.Digits, Acts.Rightful,
           ControlModel.ReviewError;
      var k := ShadowKey(payload.tenant, id);
      var created;
      did := [];
      r, created := investigations.BeginIntake(k.0, k.1, NestedIntake(payload, reviewer, asOf), newRun);
      ghost var began := investigations.Now();
      if r.Ok? {
        var row;
        row, did := investigations.Resume(r.value, evidenceTool, reasoning, clock);
        ControlIntake.GrewIsTransitive(old(investigations.Now()), began, investigations.Now());
        if created {
          ShadowsAreUnreviewable(investigations.runs[r.value].spine);
        }
      }
    }

    /**
     The work under a claim, which is released whichever way it ends. The nested intake is refused if the key of the
     shadow run is bound to another payload, and only then.
     */
    method UnderClaim(request: Request, id: ShadowId, claim: ShadowRepository.ShadowClaim, asOf: Time,
                      newRun: ControlIntake.RunId, clock: nat -> Time, analyse: Analysis)
        returns (r: Result<ShadowResult, string>, ghost nested: Option<ControlIntake.RunId>, ghost did: seq<Acts.Act>)
      requires repository.Valid() && investigations.Valid() && Adapters() && OwnErrors(analyse)
      requires claim.repository == repository && !claim.released && claim.keys == Keys(repository.hash, request)
      requires repository.held == ShadowRepository.KeySet(claim.keys)
      requires id in repository.rows && repository.rows[id].payload == request.payload && repository.rows[id].status == Started
      modifies repository, investigations, claim
      ensures Ready()
      ensures repository.trace == old(repository.trace) + ShadowRepository.Given(claim.keys)
      ensures ShadowRepository.Continues(repository.hash, old(repository.Now()), repository.Now(), {})
      ensures ControlIntake.Grew(old(investigations.Now()), investigations.Now())
      ensures id in repository.rows && repository.rows[id].payload == request.payload
      ensures r.Ok? ==>
                && r.value.id == id && repository.rows[id] == r.value.row && !r.value.replay
                && r.value.row.payload == request.payload && r.value.row.status.Finished?
                && Analysed(r.value.row.status, analyse)
                && nested == Some(r.value.row.status.investigation)
                && repository.events != []
                && repository.events[|repository.events| - 1] == Event(id, SHADOW_RUN_COMPLETED)
      ensures nested.Some? ==>
                && NestedRun(nested.value, request.payload, id, nested.value == newRun && newRun !in old(investigations.runs), asOf)
                && nested.value in investigations.runs
                && Acts.Rightful(Ports(clock), did, investigations.runs[nested.value].spine)
      ensures r.Err? && nested == None ==> NotNested(r.error, request.payload, id, newRun)
      ensures r.Err? && nested.Some? ==>
                && repository.rows[id].status == Started
                && analyse(ControlRest.ViewOf(investigations.runs[nested.value].spine)) == Err(r.error)
      ensures r != Err("SHADOW_COMPLETION_CONFLICT")
      ensures BoundElsewhere(old(investigations.keys), ShadowKey(request.payload.tenant, id), request.payload) ==>
                r == Err("IDEMPOTENCY_KEY_CONFLICT")
      ensures r == Err("IDEMPOTENCY_KEY_CONFLICT") ==>
                BoundElsewhere(investigations.keys, ShadowKey(request.payload.tenant, id), request.payload)
    {
      hide ShadowRepository.Continues, ControlIntake.Grew, ControlIntake.IntakeInv, UniqueRows, Keys, Matching,
           ControlRest.ViewOf, Identity.Digits, Acts.Rightful, Unreviewable, BoundElsewhere, ShadowKey,
           ShadowRepository.KeySet, ShadowRepository.Given;
      ShadowRepository.NoneHeld(claim.keys);
      ghost var claimed := repository.Now();
      nested := None;
      ShadowRepository.ContinuesIsReflexive(repository.hash, claimed, {});
      var investigation;
      investigation, did := Investigate(request.payload, id, asOf, newRun, clock);
      if investigation.Err? {
        claim.Release();
        return Err(investigation.error), None, did;
      }
      var run := investigation.value;
      nested := Some(run);
      repository.OtherSessions();  // during the investigation
      ghost var analysed := repository.Now();
      ShadowRepository.ClaimSurvives(repository.hash, claimed, analysed, request, id);
      ShadowRepository.FewerLocks(repository.hash, claimed, analysed, repository.held, {});
      var output := analyse(ControlRest.ViewOf(investigations.runs[run].spine));
      if output.Err? {
        claim.Release();
        return Err(output.error), nested, did;
      }
      var completed := repository.Complete(id, run, output.value);
      ShadowRepository.ContinuesIsTransitive(repository.hash, old(repository.Now()), analysed, repository.Now(), {}, {});
      claim.Release();
      r := Ok(ShadowResult(id, completed.value, false));
    }
  }

  /** Some row with the key or the case of the request carries another payload. */
  ghost predicate ConflictsWithARow(rows: map<ShadowId, ShadowRow>, r: Request) {
    exists i :: i in rows && Matches(rows[i], r) && rows[i].payload != r.payload
  }

  lemma ShadowsAreUnreviewable(sp: ControlModel.Spine)
    requires sp.run.shadow
    ensures Unreviewable(sp)
  {
  }
}
