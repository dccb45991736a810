/** The deterministic control loop over the run's transactions: resume to rest, review, audit. */
module ControlService {
  import opened Wrappers
  import opened Evidence
  import opened ControlModel
  import opened ControlSystem
  import opened ControlInvariant
  import opened ControlTheorems
  import opened ControlRules
  import opened ControlActs
  import opened ControlRepository

  class InvestigationService {
    const repository: Repository
    const evidenceTool: Tool -> Outcome
    const reasoning: seq<Evidence> -> Outcome
    const clock: nat -> Time
    var ticks: nat

    constructor (repository: Repository, evidenceTool: Tool -> Outcome, reasoning: seq<Evidence> -> Outcome, clock: nat -> Time)
      ensures this.repository == repository && this.evidenceTool == evidenceTool && this.reasoning == reasoning
      ensures this.clock == clock
    {
      this.repository, this.evidenceTool, this.reasoning, this.clock := repository, evidenceTool, reasoning, clock;
      ticks := 0;
    }

    /** The adapters return what their types say. */
    ghost predicate Adapters() {
      && (forall t | t in EVIDENCE_TOOLS :: WellTyped(t, evidenceTool(t)))
      && (forall b :: WellTyped(REASONING_TOOL, reasoning(b)))
    }

    /** The caller holds no lock and its record is the run as it is or as it was. */
    ghost predicate Ready(run: RunRow)
      reads repository
    {
      repository.Valid() && repository.held == {} && PcInv(repository.spine, ControlSystem.Ready(run))
    }

    method Now() returns (now: Time)
      modifies this`ticks
      ensures now == clock(old(ticks)) && ticks == old(ticks) + 1
    {
      now := clock(ticks);
      ticks := ticks + 1;
    }

    // ---------------------------------------------------------------- resume

    function Ports(): Ports {
      ControlActs.Ports(evidenceTool, reasoning, clock)
    }

    /**
     Only a conflict is retried, and it always finds a later version, so the loop ends; nothing else is raised. All
     that this session did on the way, in `did`, was its to do.
     */
    method Resume(start: RunRow) returns (r: Result<RunRow, string>, ghost did: seq<Act>)
      requires Adapters() && Ready(start)
      modifies this`ticks, repository
      ensures r.Ok? && !Working(r.value.state)
      ensures Ready(r.value) && Continues(old(repository.spine), repository.spine, {})
      ensures repository.acts == old(repository.acts) + did && Rightful(Ports(), did, repository.spine)
      ensures EndsAt(did, r.value)
      ensures !Working(start.state) ==> r.value == start && repository.spine == old(repository.spine) && did == []
    {
      hide SpineInv, PcInv, Rely, Rightful, GoesOn;
      var run := start;
      did := [];
      RelyIsReflexive(repository.spine);
      NothingDone(Ports(), repository.spine);
      while true
        invariant Ready(run) && Continues(old(repository.spine), repository.spine, {})
        invariant repository.acts == old(repository.acts) + did && Rightful(Ports(), did, repository.spine)
        invariant did != [] ==> did[|did| - 1].Rejects?
        invariant !Working(start.state) ==> run == start && repository.spine == old(repository.spine) && did == []
        decreases Fuel(run)
      {
        ghost var before := repository.spine;
        ghost var more: seq<Act>;
        r, more := ResumeStep(run);
        ContinuesIsTransitive(old(repository.spine), before, repository.spine, {});
        ContinuesGoesOn(before, repository.spine, {});
        RightfulThen(Ports(), did, before, more, repository.spine);
        did := did + more;
        if r.Ok? || r.error != STATE_VERSION_CONFLICT {
          return;
        }
        before := repository.spine;
        repository.OtherSessions();
        ContinuesIsTransitive(old(repository.spine), before, repository.spine, {});
        ContinuesGoesOn(before, repository.spine, {});
        RightfulStays(Ports(), did, before, repository.spine);
        VersionsGrow(before, repository.spine);
        LatestIsReady(repository.spine);
        run := repository.GetRun();
      }
    }

    /** One pass: to rest, or to a conflict with a version later than the record this pass began with. */
    method ResumeStep(start: RunRow) returns (r: Result<RunRow, string>, ghost did: seq<Act>)
      requires Adapters() && Ready(start)
      modifies this`ticks, repository
      ensures repository.Valid() && repository.held == {} && Continues(old(repository.spine), repository.spine, {})
      ensures r.Ok? ==> !Working(r.value.state) && Ready(r.value) && EndsAt(did, r.value)
      ensures r.Err? ==> r.error == STATE_VERSION_CONFLICT && start.version < repository.spine.run.version
      ensures r.Err? ==> did != [] && did[|did| - 1] == Rejects(STATE_VERSION_CONFLICT)
      ensures repository.acts == old(repository.acts) + did && Rightful(Ports(), did, repository.spine)
      ensures !Working(start.state) ==> r == Ok(start) && repository.spine == old(repository.spine) && did == []
    {
      hide SpineInv, PcInv, Rely, Continues, Rightful, GoesOn;
      var run := start;
      did := [];
      ContinuesIsReflexive(repository.spine);
      NothingDone(Ports(), repository.spine);
      while Working(run.state)
        invariant Ready(run) && Continues(old(repository.spine), repository.spine, {}) && start.version <= run.version
        invariant repository.acts == old(repository.acts) + did && Rightful(Ports(), did, repository.spine)
        invariant EndsAt(did, run)
        invariant !Working(start.state) ==> run == start && repository.spine == old(repository.spine) && did == []
        decreases Fuel(run)
      {
        ghost var before := repository.spine;
        VersionsFit(before, ControlSystem.Ready(run));
        ghost var more: seq<Act>;
        r, more := StageStep(run);
        ContinuesIsTransitive(old(repository.spine), before, repository.spine, {});
        ContinuesGoesOn(before, repository.spine, {});
        RightfulThen(Ports(), did, before, more, repository.spine);
        did := did + more;
        if r.Err? || r.value.state == ESCALATED {
          return;
        }
        run := r.value;
      }
      r := Ok(run);
    }

    /** The work of one stage and the move it calls for, made or refused. */
    method StageStep(run: RunRow) returns (r: Result<RunRow, string>, ghost did: seq<Act>)
      requires Adapters() && Ready(run) && Working(run.state)
      modifies this`ticks, repository
      ensures repository.Valid() && repository.held == {} && Continues(old(repository.spine), repository.spine, {})
      ensures r.Ok? ==> Ready(r.value) && r.value.version == run.version + 1
      ensures r.Ok? ==> did != [] && EndsAt(did, r.value)
      ensures r.Err? ==> r.error == STATE_VERSION_CONFLICT && run.version < repository.spine.run.version
      ensures r.Err? ==> did != [] && did[|did| - 1] == Rejects(STATE_VERSION_CONFLICT)
      ensures repository.acts == old(repository.acts) + did && Rightful(Ports(), did, repository.spine)
    {
      hide SpineInv, PcInv, Rely, Continues, Rightful, GoesOn, Entitled, CalledFor, IsReading;
      var m, work := Work(run);
      ghost var worked := repository.spine;
      ghost var now: Time;
      r, now := Commit(run, m);
      ContinuesIsTransitive(old(repository.spine), worked, repository.spine, {});
      ContinuesGoesOn(worked, repository.spine, {});
      did := work + [if r.Ok? then Commits(run, m, now) else Rejects(STATE_VERSION_CONFLICT)];
      if r.Ok? {
        CommitIsRightful(Ports(), work, run, m, now, worked, repository.spine);
      } else {
        RejectIsRightful(Ports(), repository.spine);
        RightfulThen(Ports(), work, worked, [Rejects(STATE_VERSION_CONFLICT)], repository.spine);
      }
    }

    /**
     The stage's work, and the move it calls for as the rows stand then: forward, or the escalation that the first
     failing check or unfinished tool gives. Whatever happens meanwhile, that move stays justified.
     */
    method Work(run: RunRow) returns (m: Move, ghost did: seq<Act>)
      requires Adapters() && Ready(run) && Working(run.state)
      modifies this`ticks, repository
      ensures repository.Valid() && repository.held == {} && Continues(old(repository.spine), repository.spine, {})
      ensures CalledFor(repository.spine.tools, run, m)
      ensures repository.acts == old(repository.acts) + did && Rightful(Ports(), did, repository.spine)
      ensures Entitled(LastOf(did), run, m, repository.spine.tools)
      ensures PcInv(repository.spine, Moving(run, m))
    {
      hide SpineInv, PcInv, Rely, Continues, QualityMove, DraftMove, Rightful, Accepted, RefusedWith, Cites, GoesOn,
           GatheringStops, UnfinishedIn, StopsAt, ListEvidence;
      repository.OtherSessions();
      ContinuesKeeps(old(repository.spine), repository.spine, {}, ControlSystem.Ready(run));
      ReadyStep(repository.spine, run);
      ghost var before := repository.spine;
      ContinuesIsReflexive(before);
      did := [];
      NothingDone(Ports(), before);
      if run.state == CREATED {
        m := Forward(VALIDATING, VALIDATION_STARTED);
      } else if run.state == VALIDATING {
        m := Forward(GATHERING_EVIDENCE, EVIDENCE_GATHERING_STARTED);
      } else if run.state == GATHERING_EVIDENCE {
        var gathered, acts := GatherEvidence(run);
        did := acts;
        m := if gathered.Err? then Escalation(gathered.error) else Forward(QUALITY_CHECKS, EVIDENCE_GATHERED);
      } else if run.state == QUALITY_CHECKS {
        var failure := ValidateBundle(ListEvidence(repository.spine.tools), run.asOf);
        m := if failure.Some? then Escalation(failure.value) else Forward(REASONING, QUALITY_CHECKS_PASSED);
        QualityMoveIs(repository.spine.tools, run.asOf);
        QualityIsReady(before, run);
        BundleAcceptedIff(ListEvidence(before.tools), run.asOf);
        BundleRefusedIff(ListEvidence(before.tools), run.asOf, m.code);
      } else if run.state == REASONING {
        var reasoned, acts := ReasonOnce(run);
        did := acts;
        m := if reasoned.Err? then Escalation(reasoned.error) else Forward(DRAFTING_RECOMMENDATION, REASONING_COMPLETED);
      } else {
        m := Draft(run);
        NothingDone(Ports(), repository.spine);
      }
      ContinuesIsTransitive(old(repository.spine), before, repository.spine, {});
    }

    method Commit(run: RunRow, m: Move) returns (r: Result<RunRow, string>, ghost now: Time)
      requires repository.Valid() && repository.held == {} && PcInv(repository.spine, Moving(run, m))
      modifies this`ticks, repository
      ensures repository.Valid() && repository.held == {} && Continues(old(repository.spine), repository.spine, {})
      ensures r.Ok? ==> Ready(r.value) && r.value.version == run.version + 1 && r.value.state == m.target
      ensures r.Ok? ==> Event(m.eventType, Some(run.state), Some(m.target), m.code) in repository.spine.events
      ensures r.Err? ==> r.error == STATE_VERSION_CONFLICT && run.version < repository.spine.run.version
      ensures repository.acts == old(repository.acts) + [if r.Ok? then Commits(run, m, now) else Rejects(STATE_VERSION_CONFLICT)]
      ensures IsReading(Ports(), now)
    {
      hide SpineInv, PcInv, Rely, CanTransition;
      repository.OtherSessions();
      ghost var before := repository.spine;
      ContinuesKeeps(old(repository.spine), before, {}, Moving(run, m));
      var at := Now();
      now := at;
      MoveStep(before, run, m, at);
      r := repository.Transition(run, m, at);
      ContinuesIsTransitive(old(repository.spine), before, repository.spine, {});
      if r.Ok? {
        RestIsReady(repository.spine, r.value);
        assert repository.spine.events[|before.events|] == Event(m.eventType, Some(run.state), Some(m.target), m.code);
      } else {
        ConflictIsLater(before, run);
        VersionsGrow(before, repository.spine);
      }
    }

    // ----------------------------------------------------------------- tools

    /** Each evidence tool in order: observe its row, or call it under its lock. */
    method GatherEvidence(run: RunRow) returns (r: Result<seq<Evidence>, string>, ghost did: seq<Act>)
      requires Adapters() && repository.Valid() && repository.held == {}
      requires PcInv(repository.spine, Wants(run, T1_INVENTORY, []))
      modifies this`ticks, repository
      ensures repository.Valid() && repository.held == {} && Continues(old(repository.spine), repository.spine, {})
      ensures r.Ok? ==> AllGathered(repository.spine.tools) && r.value == ListEvidence(repository.spine.tools)
      ensures r.Ok? ==> PcInv(repository.spine, Moving(run, Forward(QUALITY_CHECKS, EVIDENCE_GATHERED)))
      ensures r.Err? ==> PcInv(repository.spine, Moving(run, Escalation(r.error)))
      ensures r.Err? ==> GatheringStops(repository.spine.tools, r.error) && !AllGathered(repository.spine.tools)
      ensures repository.acts == old(repository.acts) + did && Rightful(Ports(), did, repository.spine)
      ensures r.Err? ==> StoppedByLast(did, GATHERING_EVIDENCE, r.error, repository.spine.tools)
    {
      hide SpineInv, PcInv, Rely, Continues, ListEvidence, Rightful, GoesOn, GatheringStops, StopsAt, GatheredUpTo;
      var evidence := [];
      var k := 0;
      did := [];
      ContinuesIsReflexive(repository.spine);
      NothingDone(Ports(), repository.spine);
      NoneGathered(repository.spine.tools);
      while k < 3
        invariant 0 <= k <= 3 && repository.Valid() && repository.held == {}
        invariant Continues(old(repository.spine), repository.spine, {})
        invariant PcInv(repository.spine, GatherPc(run, k))
        invariant GatheredUpTo(repository.spine.tools, k, evidence)
        invariant repository.acts == old(repository.acts) + did && Rightful(Ports(), did, repository.spine)
      {
        ghost var before := repository.spine;
        var row, more := GatherOne(run, k);
        ContinuesIsTransitive(old(repository.spine), before, repository.spine, {});
        ContinuesGoesOn(before, repository.spine, {});
        RightfulThen(Ports(), did, before, more, repository.spine);
        did := did + more;
        if !row.Completed? {
          GatheredStays(before, repository.spine, k, evidence);
          GatheringStopped(repository.spine.tools, k, evidence, RetryCode(SPECS[k], row));
          return Err(RetryCode(SPECS[k], row)), did;
        }
        OneMoreGathered(before, repository.spine, k, evidence);
        evidence := evidence + [row.result.item];
        k := k + 1;
      }
      AllThreeGathered(repository.spine.tools, evidence);
      r := Ok(evidence);
    }

    /** One evidence tool: the row that was there, or that of its own call. */
    method GatherOne(run: RunRow, k: nat) returns (row: ToolRow, ghost did: seq<Act>)
      requires Adapters() && repository.Valid() && repository.held == {} && k < 3
      requires PcInv(repository.spine, GatherPc(run, k))
      modifies this`ticks, repository
      ensures repository.Valid() && repository.held == {} && Continues(old(repository.spine), repository.spine, {})
      ensures SPECS[k] in repository.spine.tools && repository.spine.tools[SPECS[k]] == row
      ensures PcInv(repository.spine, AfterTool(run, SPECS[k], row))
      ensures repository.acts == old(repository.acts) + did && Rightful(Ports(), did, repository.spine)
      ensures did != [] && did[|did| - 1] in {Observes(SPECS[k], row), Finishes(SPECS[k], row)}
      ensures repository.locks == old(repository.locks) + [Took(SPECS[k]), Gave(SPECS[k])]
    {
      hide SpineInv, PcInv, Rely, Continues, Rightful, GoesOn, Leaves, AfterTool, RowFor;
      var t := SPECS[k];
      var claim;
      row, claim := repository.ClaimOrObserveTool(t, run, []);
      did := [Observes(t, row)];
      if claim != null {
        ghost var claimed := repository.spine;
        var outcome := evidenceTool(t);
        row := Complete(claim, run, [], outcome);
        ContinuesIsTransitive(old(repository.spine), claimed, repository.spine, {});
        RowForLeaves(outcome, []);
        did := [Claims(t), Finishes(t, row)];
        CallIsRightful(Ports(), t, row, repository.spine);
      } else {
        ObservedIsRightful(Ports(), t, row, repository.spine);
      }
    }

    /** Observe the reasoning row, or call the adapter on the stored evidence under its lock. */
    method ReasonOnce(run: RunRow) returns (r: Result<ReasoningResult, string>, ghost did: seq<Act>)
      requires Adapters() && repository.Valid() && repository.held == {}
      requires PcInv(repository.spine, Wants(run, REASONING_TOOL, ListEvidence(repository.spine.tools)))
      modifies this`ticks, repository
      ensures repository.Valid() && repository.held == {} && Continues(old(repository.spine), repository.spine, {})
      ensures r.Ok? ==> Has(repository.spine.tools, REASONING_TOOL)
                        && repository.spine.tools[REASONING_TOOL].result == Reasoned(r.value)
      ensures r.Ok? ==> PcInv(repository.spine, Moving(run, Forward(DRAFTING_RECOMMENDATION, REASONING_COMPLETED)))
      ensures r.Err? ==> PcInv(repository.spine, Moving(run, Escalation(r.error)))
      ensures r.Err? ==> UnfinishedIn(repository.spine.tools, REASONING_TOOL, r.error) && !Has(repository.spine.tools, REASONING_TOOL)
      ensures repository.acts == old(repository.acts) + did && Rightful(Ports(), did, repository.spine)
      ensures r.Err? ==> StoppedByLast(did, REASONING, r.error, repository.spine.tools)
      ensures repository.locks == old(repository.locks) + [Took(REASONING_TOOL), Gave(REASONING_TOOL)]
    {
      hide SpineInv, PcInv, Rely, Continues, ListEvidence, Rightful, GoesOn, Leaves, RowFor, WellTyped;
      var evidence := ListEvidence(repository.spine.tools);
      ghost var before := repository.spine;
      ReasoningIsReady(before, run, evidence);
      repository.OtherSessions();
      ghost var asked := repository.spine;
      ContinuesKeeps(before, asked, {}, Wants(run, REASONING_TOOL, evidence));
      var row, claim := repository.ClaimOrObserveTool(REASONING_TOOL, run, evidence);
      ContinuesIsTransitive(before, asked, repository.spine, {});
      did := [Observes(REASONING_TOOL, row)];
      if claim != null {
        ghost var claimed := repository.spine;
        var outcome := reasoning(evidence);
        row := Complete(claim, run, evidence, outcome);
        ContinuesIsTransitive(before, claimed, repository.spine, {});
        ContinuesGoesOn(before, repository.spine, {});
        ResultsStay(before, repository.spine);
        RowForLeaves(outcome, evidence);
        did := [Claims(REASONING_TOOL), Finishes(REASONING_TOOL, row)];
        CallIsRightful(Ports(), REASONING_TOOL, row, repository.spine);
      } else {
        ObservedIsRightful(Ports(), REASONING_TOOL, row, repository.spine);
      }
      if !row.Completed? {
        return Err(RetryCode(REASONING_TOOL, row)), did;
      }
      RowsAreTyped(repository.spine, REASONING_TOOL);
      r := Ok(row.result.result);
    }

    /** Records what the call came to, then gives the lock back. */
    method Complete(claim: ToolClaim, run: RunRow, bundle: seq<Evidence>, outcome: Outcome) returns (row: ToolRow)
      requires claim.repository == repository && !claim.released && repository.held == {claim.tool}
      requires repository.Valid() && PcInv(repository.spine, Owning(run, claim.tool, bundle)) && WellTyped(claim.tool, outcome)
      modifies repository, claim
      ensures claim.released && repository.held == {}
      ensures repository.Valid() && Continues(old(repository.spine), repository.spine, {})
      ensures row == RowFor(bundle, outcome) && repository.acts == old(repository.acts) + [Finishes(claim.tool, row)]
      ensures repository.locks == old(repository.locks) + [Gave(claim.tool)]
      ensures claim.tool in repository.spine.tools && repository.spine.tools[claim.tool] == row
      ensures PcInv(repository.spine, AfterTool(run, claim.tool, row))
    {
      hide SpineInv, PcInv, Rely, AfterTool, RowFor;
      var t := claim.tool;
      repository.OtherSessions();  // during the call
      ghost var called := repository.spine;
      ContinuesKeeps(old(repository.spine), called, {t}, Owning(run, t, bundle));
      OwnerCompletes(called, run, t, bundle, outcome);
      row := RowFor(bundle, outcome);
      var error := repository.CompleteTool(t, row);
      ghost var completed := repository.spine;
      repository.OtherSessions();
      ContinuesKeeps(completed, repository.spine, {t}, Closing(run, t, row));
      FewerLocks(old(repository.spine), called, {t});
      FewerLocks(completed, repository.spine, {t});
      ContinuesIsTransitive(old(repository.spine), called, completed, {});
      ContinuesIsTransitive(old(repository.spine), completed, repository.spine, {});
      ObserveStep(repository.spine, Closing(run, t, row));
      claim.Release();
    }

    /** Reads the reasoning row, then the evidence; both are final by now. */
    method Draft(run: RunRow) returns (m: Move)
      requires Ready(run) && run.state == DRAFTING_RECOMMENDATION
      modifies this`ticks, repository
      ensures repository.Valid() && repository.held == {} && Continues(old(repository.spine), repository.spine, {})
      ensures PcInv(repository.spine, Moving(run, m))
      ensures m.target == AWAITING_HUMAN && repository.acts == old(repository.acts)
      ensures CalledFor(repository.spine.tools, run, m) && Entitled(None, run, m, repository.spine.tools)
    {
      hide SpineInv, PcInv, Rely;
      ContinuesIsReflexive(repository.spine);
      DraftingIsReady(repository.spine, run);
      var row := repository.spine.tools[REASONING_TOOL];
      repository.OtherSessions();
      ContinuesKeeps(old(repository.spine), repository.spine, {}, ControlSystem.Ready(run));
      DraftingIsReady(repository.spine, run);
      ReasoningStays(old(repository.spine), repository.spine);
      var evidence := ListEvidence(repository.spine.tools);
      if !row.Completed? {
        m := Escalation("REASONING_RESULT_UNAVAILABLE");
      } else if !row.result.Reasoned? || !ValidCitations(row.result.result, IdsOf(evidence)) {
        m := Escalation("INVALID_REASONING_OUTPUT");
      } else {
        m := Move(AWAITING_HUMAN, DRAFT_READY, "", Some(row.result.result));
      }
      ReadyStep(repository.spine, run);
      DispatchIsCalledFor(repository.spine, run);
    }

    // ------------------------------------------------------- review and audit

    /**
     Role, key and edited payload first, each with its own refusal; then the one transaction on the rows as it finds
     them locked, `locked`, decides. An edit is accepted only if all it cites is stored evidence of the run.
     */
    method Review(review: Review, key: string) returns (r: Result<RunRow, string>, ghost locked: Spine)
      requires repository.Valid()
      modifies repository`spine, repository`acts
      ensures repository.Valid() && Continues(old(repository.spine), repository.spine, {})
      ensures r == Err("REVIEWER_ROLE_REQUIRED") <==> !review.hasRole
      ensures r == Err("INVALID_IDEMPOTENCY_KEY") <==> review.hasRole && !(1 <= |key| <= 200)
      ensures r == Err("INVALID_EDITED_PAYLOAD") <==>
                && review.hasRole && 1 <= |key| <= 200
                && review.edited.Some? && !Cites(review.edited.value, ListEvidence(old(repository.spine).tools))
      ensures r == Err("INVALID_IDEMPOTENCY_KEY") ==> repository.spine == old(repository.spine)
      ensures PassesToTheLock(r) ==>
                && Continues(old(repository.spine), locked, {}) && repository.spine == Reviewed(locked, review)
                && (if ReviewError(locked, review).Some? then r == Err(ReviewError(locked, review).value)
                    else r == Ok(repository.spine.run))
      ensures r.Ok? && review.edited.Some? ==> Cites(review.edited.value, ListEvidence(repository.spine.tools))
      ensures r.Ok? ==>
                && review.hasRole && 1 <= |key| <= 200
                && old(repository.spine).decision == None && r.value == repository.spine.run
                && r.value.state == CLOSED && r.value.version == 8
                && review.principal == r.value.assignedReviewer && Some(review.submitted) == r.value.draftHash && !r.value.shadow
                && repository.spine.decision
                   == Some(Decision(review.action, review.principal, review.submitted, review.edited, review.now))
                && EndsWithDecision(repository.spine.events, review.action)
      ensures r.Err? && r.error != "INVALID_IDEMPOTENCY_KEY" ==>
                var events := repository.spine.events;
                && |old(repository.spine).events| < |events|
                && events[|events| - 1].eventType in {CONTROL_REJECTED, REVIEW_REJECTED}
                && events[|events| - 1].code == r.error && events[|events| - 1].fromState == events[|events| - 1].toState
    {
      hide SpineInv, Rely, IdsOf, ListEvidence, ValidCitations, Cites;
      ghost var held := repository.held;
      locked := repository.spine;
      ContinuesIsReflexive(repository.spine);
      if !review.hasRole {
        repository.AppendRejectedControl("REVIEWER_ROLE_REQUIRED");
        FewerLocks(old(repository.spine), repository.spine, held);
        return Err("REVIEWER_ROLE_REQUIRED"), locked;
      }
      if |key| < 1 || |key| > 200 {
        return Err("INVALID_IDEMPOTENCY_KEY"), locked;
      }
      ghost var stored := ListEvidence(repository.spine.tools);
      if review.edited.Some? {
        CitesIff(review.edited.value, stored);
      }
      if review.edited.Some? && !ValidCitations(review.edited.value, IdsOf(ListEvidence(repository.spine.tools))) {
        repository.AppendRejectedControl("INVALID_EDITED_PAYLOAD");
        FewerLocks(old(repository.spine), repository.spine, held);
        return Err("INVALID_EDITED_PAYLOAD"), locked;
      }
      repository.OtherSessions();
      locked := repository.spine;
      FewerLocks(old(repository.spine), locked, held);
      r := repository.RecordReview(review);
      ReviewCodes(locked, review);
      ReviewedMovesOn(locked, review);
      ReviewedContinues(locked, review);
      ContinuesIsTransitive(old(repository.spine), locked, repository.spine, {});
      if r.Ok? {
        DecisionsStay(old(repository.spine), locked);
        ClosureIs(locked, review);
        if review.edited.Some? {
          CitationsStay(old(repository.spine), repository.spine, review.edited.value);
        }
      }
    }

    /** The fold over the log as read, next to a row read later. */
    method Audit() returns (replayed: Option<RunState>, current: RunState)
      requires repository.Valid()
      modifies repository`spine
      ensures replayed == Replayed(old(repository.spine).events)
      ensures current == repository.spine.run.state && Continues(old(repository.spine), repository.spine, repository.held)
    {
      hide SpineInv, Rely;
      var events := repository.spine.events;
      replayed := None;
      for i := 0 to |events|
        invariant replayed == Replayed(events[..i])
        invariant repository.Valid() && repository.spine == old(repository.spine)
      {
        assert events[..i + 1] == events[..i] + [events[i]];
        AppendEvent(events[..i], events[i]);
        if events[i].toState.Some? && events[i].toState != events[i].fromState {
          replayed := events[i].toState;
        }
      }
      assert events[..|events|] == events;
      repository.OtherSessions();
      var run := repository.GetRun();
      current := run.state;
    }
  }

  // --------------------------------------------------------- specification

  const SPECS: seq<Tool> := [T1_INVENTORY, T2_SALES_DEMAND, T3_SUPPLIER]

  function LastOf(acts: seq<Act>): Option<Act> {
    if acts == [] then None else Some(acts[|acts| - 1])
  }

  /** A session that ended in a move of its own has the row that this move left. */
  ghost predicate EndsAt(did: seq<Act>, row: RunRow) {
    did != [] && did[|did| - 1].Commits? ==>
      var last := did[|did| - 1];
      row.state == last.move.target && row.version == last.seen.version + 1
  }

  /** The last thing done was to read, or to complete, the row that stops the stage under this code. */
  ghost predicate StoppedByLast(did: seq<Act>, stage: RunState, code: string, tools: map<Tool, ToolRow>) {
    && did != []
    && var last := did[|did| - 1];
       && (last.Observes? || last.Finishes?) && StageOf(last.tool) == stage
       && StopsAt(tools, last.tool, last.row, code)
  }

  function GatherPc(run: RunRow, k: nat): Pc
    requires k <= 3
  {
    if k < 3 then Wants(run, SPECS[k], []) else Moving(run, Forward(QUALITY_CHECKS, EVIDENCE_GATHERED))
  }

  ghost predicate GatheredUpTo(tools: map<Tool, ToolRow>, k: nat, evidence: seq<Evidence>)
    requires k <= 3
  {
    && |evidence| == k
    && forall i | 0 <= i < k :: Has(tools, SPECS[i]) && tools[SPECS[i]].result == Item(evidence[i])
  }

  function Fuel(run: RunRow): int {
    9 - run.version
  }

  lemma ContinuesIsReflexive(a: Spine)
    ensures Continues(a, a, {})
  {
  }

  lemma VersionsGrow(a: Spine, b: Spine)
    requires SpineInv(a) && SpineInv(b) && Rely(a, b)
    ensures a.run.version <= b.run.version <= 8
  {
    hide StageInv, TypedRows, Reached;
  }

  lemma LatestIsReady(sp: Spine)
    requires SpineInv(sp)
    ensures PcInv(sp, ControlSystem.Ready(sp.run))
  {
  }

  lemma VersionsFit(sp: Spine, pc: Pc)
    requires PcInv(sp, pc)
    ensures pc.run.version <= 8
  {
  }

  lemma RestIsReady(sp: Spine, run: RunRow)
    requires PcInv(sp, Returned(run)) || PcInv(sp, ControlSystem.Ready(run))
    ensures PcInv(sp, ControlSystem.Ready(run))
  {
  }

  lemma ConflictIsLater(sp: Spine, run: RunRow)
    requires PcInv(sp, Refused(run))
    ensures run.version < sp.run.version
  {
  }

  lemma QualityMoveIs(tools: map<Tool, ToolRow>, asOf: Time)
    ensures var failure := ValidateBundle(ListEvidence(tools), asOf);
            QualityMove(tools, asOf)
            == if failure.Some? then Escalation(failure.value) else Forward(REASONING, QUALITY_CHECKS_PASSED)
  {
  }

  lemma FewerLocks(a: Spine, b: Spine, held: set<Tool>)
    requires Continues(a, b, held)
    ensures Continues(a, b, {})
  {
  }

  lemma RowsAreTyped(sp: Spine, t: Tool)
    requires SpineInv(sp) && Has(sp.tools, t)
    ensures if t == REASONING_TOOL then sp.tools[t].result.Reasoned? else sp.tools[t].result.Item?
  {
  }

  lemma NoneGathered(tools: map<Tool, ToolRow>)
    ensures GatheredUpTo(tools, 0, [])
  {
  }

  /** The tool at `k` has no result and all before it have one. */
  lemma GatheringStopped(tools: map<Tool, ToolRow>, k: nat, evidence: seq<Evidence>, code: string)
    requires k < 3 && GatheredUpTo(tools, k, evidence)
    requires SPECS[k] in tools && !tools[SPECS[k]].Completed? && code == RetryCode(SPECS[k], tools[SPECS[k]])
    ensures GatheringStops(tools, code) && !AllGathered(tools) && StopsAt(tools, SPECS[k], tools[SPECS[k]], code)
  {
    assert forall i | 0 <= i < k :: Has(tools, SPECS[i]);
    assert k > 0 ==> Has(tools, SPECS[0]);
    assert k > 1 ==> Has(tools, SPECS[1]);
    RetryCodeIs(SPECS[k], tools[SPECS[k]]);
  }

  lemma QualityIsReady(sp: Spine, run: RunRow)
    requires SpineInv(sp) && PcInv(sp, ControlSystem.Ready(run)) && run.state == QUALITY_CHECKS
    ensures AllGathered(sp.tools)
  {
    hide ListEvidence, ValidateBundle;
  }

  lemma ReasoningIsReady(sp: Spine, run: RunRow, evidence: seq<Evidence>)
    requires PcInv(sp, Wants(run, REASONING_TOOL, evidence))
    ensures AllGathered(sp.tools) && evidence == ListEvidence(sp.tools)
  {
    hide RowShape, RunForward;
  }

  lemma GatheredStays(a: Spine, b: Spine, k: nat, evidence: seq<Evidence>)
    requires Continues(a, b, {}) && k <= 3 && GatheredUpTo(a.tools, k, evidence)
    ensures GatheredUpTo(b.tools, k, evidence)
  {
  }

  lemma OneMoreGathered(a: Spine, b: Spine, k: nat, evidence: seq<Evidence>)
    requires SpineInv(b) && Continues(a, b, {}) && k < 3 && GatheredUpTo(a.tools, k, evidence) && Has(b.tools, SPECS[k])
    ensures b.tools[SPECS[k]].result.Item?
    ensures GatheredUpTo(b.tools, k + 1, evidence + [b.tools[SPECS[k]].result.item])
  {
  }

  lemma AllThreeGathered(tools: map<Tool, ToolRow>, evidence: seq<Evidence>)
    requires GatheredUpTo(tools, 3, evidence)
    ensures AllGathered(tools) && evidence == ListEvidence(tools)
  {
    assert Has(tools, SPECS[0]) && Has(tools, SPECS[1]) && Has(tools, SPECS[2]);
  }

  /** An owner's completion keeps the invariant and touches only its own row. */
  lemma OwnerCompletes(sp: Spine, run: RunRow, t: Tool, b: seq<Evidence>, o: Outcome)
    requires SpineInv(sp) && PcInv(sp, Owning(run, t, b)) && WellTyped(t, o)
    ensures t in sp.tools
    ensures var after := WithTool(sp, t, RowFor(b, o));
            SpineInv(after) && Continues(sp, after, {}) && PcInv(after, Closing(run, t, RowFor(b, o)))
  {
    CompleteStep(sp, run, t, b, o);
  }

  lemma DraftingIsReady(sp: Spine, run: RunRow)
    requires SpineInv(sp) && PcInv(sp, ControlSystem.Ready(run)) && run.state == DRAFTING_RECOMMENDATION
    ensures AllGathered(sp.tools) && Has(sp.tools, REASONING_TOOL) && DraftMove(sp.tools).target == AWAITING_HUMAN
  {
  }

  lemma ReasoningStays(a: Spine, b: Spine)
    requires Rely(a, b) && Has(a.tools, REASONING_TOOL)
    ensures Has(b.tools, REASONING_TOOL) && b.tools[REASONING_TOOL] == a.tools[REASONING_TOOL]
  {
  }

  /** None of the checks that come before the locked transaction refused. */
  predicate PassesToTheLock(r: Result<RunRow, string>) {
    r.Ok? || r.error !in {"REVIEWER_ROLE_REQUIRED", "INVALID_IDEMPOTENCY_KEY", "INVALID_EDITED_PAYLOAD"}
  }

  lemma ReviewCodes(sp: Spine, r: Review)
    ensures ReviewError(sp, r).Some? ==> PassesToTheLock(Err(ReviewError(sp, r).value))
  {
  }

  /** The last two events are the decision, under the state that its action stands for, and the closure. */
  ghost predicate EndsWithDecision(events: seq<Event>, action: Action) {
    |events| >= 2
    && var target := (match action
                      case APPROVE => APPROVED
                      case EDIT_APPROVE => EDITED_AND_APPROVED
                      case REJECT => REJECTED
                      case ESCALATE => ESCALATED);
       && events[|events| - 2] == Event(REVIEW_DECIDED, Some(AWAITING_HUMAN), Some(target), "")
       && events[|events| - 1] == Event(RUN_CLOSED, Some(target), Some(CLOSED), "")
  }

  lemma ClosureIs(sp: Spine, r: Review)
    requires ReviewError(sp, r) == None
    ensures var after := Reviewed(sp, r);
            && EndsWithDecision(after.events, r.action) && after.tools == sp.tools
            && r.principal == after.run.assignedReviewer && Some(r.submitted) == after.run.draftHash && !after.run.shadow
  {
  }

  /** Stored evidence stays stored, so what is cited once is cited for good. */
  lemma CitationsStay(a: Spine, b: Spine, edit: ReasoningResult)
    requires Rely(a, b) && Cites(edit, ListEvidence(a.tools))
    ensures Cites(edit, ListEvidence(b.tools))
  {
    ItemsStay(a, b, T1_INVENTORY);
    ItemsStay(a, b, T2_SALES_DEMAND);
    ItemsStay(a, b, T3_SUPPLIER);
    hide ItemOf, Rely;
    assert forall e | e in ListEvidence(a.tools) :: e in ListEvidence(b.tools);
  }

  lemma ItemsStay(a: Spine, b: Spine, t: Tool)
    requires Rely(a, b)
    ensures forall e | e in ItemOf(a.tools, t) :: e in ItemOf(b.tools, t)
  {
  }

  lemma ReviewedContinues(sp: Spine, r: Review)
    requires SpineInv(sp)
    ensures Continues(sp, Reviewed(sp, r), {})
  {
    ReviewedMovesOn(sp, r);
    hide SpineInv, Rely, ReviewError;
  }

  lemma DecisionsStay(a: Spine, b: Spine)
    requires SpineInv(a) && SpineInv(b) && Rely(a, b) && b.decision == None
    ensures a.decision == None
  {
  }
}
