/**
 Confluence: once it is fixed what the first claim of each tool comes to, every interleaving of any number of
 callers, with crashes, takes the run to the same place, and every caller gets there in boundedly many steps.
 */
module ControlConfluence {
  import opened Wrappers
  import opened Evidence
  import opened ControlModel
  import opened ControlSystem
  import opened ControlInvariant
  import opened ControlTheorems

  /** What the first claim of a tool comes to: an outcome, or its owner dies before completing the row. */
  datatype Fate = Abandoned | Gives(outcome: Outcome)

  datatype Plan = Plan(inventory: Fate, demand: Fate, supplier: Fate, reasoning: Fate)

  function FateOf(p: Plan, t: Tool): Fate {
    match t
    case T1_INVENTORY => p.inventory
    case T2_SALES_DEMAND => p.demand
    case T3_SUPPLIER => p.supplier
    case REASONING_TOOL => p.reasoning
  }

  /** The step agrees with the plan about the tool that its caller owns, if it owns one. */
  predicate Follows(p: Plan, s: System, step: Step) {
    match step
    case Invoke(c, o) =>
      CanInvoke(s, c, o) && FateOf(p, s.callers[c].tool).Gives? ==> o == FateOf(p, s.callers[c].tool).outcome
    case Crash(c) =>
      c in s.callers && (s.callers[c].Owning? || s.callers[c].Invoked?) ==> FateOf(p, s.callers[c].tool).Abandoned?
    case Advance(c, _) =>
      c in s.callers && s.callers[c].Invoked? ==> FateOf(p, s.callers[c].tool).Gives?
    case _ => true
  }

  predicate FollowsPlan(p: Plan, g: Config, run: seq<Step>) {
    run == [] || (FollowsPlan(p, g, Before(run)) && Follows(p, After(g, Before(run)), Last(run)))
  }

  // ---------------------------------------------------------- destination

  /** The code under which a tool's fate stops the run, if it does. */
  function StopCode(p: Plan, t: Tool): Option<string> {
    match FateOf(p, t)
    case Abandoned => Some(if t == REASONING_TOOL then "REASONING_RETRY_FORBIDDEN" else "EVIDENCE_RETRY_FORBIDDEN")
    case Gives(Fails(code)) => Some(code)
    case Gives(Yields(r)) =>
      if r.Reasoned? && !ValidCitations(r.result, IdsOf(PlannedEvidence(p))) then Some("INVALID_REASONING_OUTPUT") else None
  }

  function PlannedItem(f: Fate): seq<Evidence> {
    if f.Gives? && f.outcome.Yields? && f.outcome.result.Item? then [f.outcome.result.item] else []
  }

  function PlannedEvidence(p: Plan): seq<Evidence> {
    PlannedItem(p.inventory) + PlannedItem(p.demand) + PlannedItem(p.supplier)
  }

  datatype Destination = Escalates(version: nat, code: string) | Drafts

  /** The first failing stage decides: the tools in order, then the quality checks, then reasoning. */
  function DestinationOf(p: Plan, asOf: Time): Destination {
    var failure := ValidateBundle(PlannedEvidence(p), asOf);
    if StopCode(p, T1_INVENTORY).Some? then Escalates(3, StopCode(p, T1_INVENTORY).value)
    else if StopCode(p, T2_SALES_DEMAND).Some? then Escalates(3, StopCode(p, T2_SALES_DEMAND).value)
    else if StopCode(p, T3_SUPPLIER).Some? then Escalates(3, StopCode(p, T3_SUPPLIER).value)
    else if failure.Some? then Escalates(4, failure.value)
    else if StopCode(p, REASONING_TOOL).Some? then Escalates(5, StopCode(p, REASONING_TOOL).value)
    else Drafts
  }

  function LastStage(d: Destination): int {
    if d.Escalates? then d.version - 1 else 6
  }

  // ------------------------------------------------------------ invariant

  /** Rows say what the plan says. */
  ghost predicate RowPlanned(p: Plan, t: Tool, row: ToolRow) {
    match row
    case Started => true
    case Completed(r) => FateOf(p, t) == Gives(Yields(r)) && StopCode(p, t) == None
    case Failed(code) => FateOf(p, t).Gives? && StopCode(p, t) == Some(code)
  }

  ghost predicate TypedPlan(p: Plan) {
    forall t :: FateOf(p, t).Gives? ==> WellTyped(t, FateOf(p, t).outcome)
  }

  /** A started row is either owned by a live caller or was abandoned by the plan. */
  ghost predicate OwnedOrAbandoned(p: Plan, s: System, t: Tool) {
    FateOf(p, t) == Abandoned
    || (t in s.locks && s.locks[t] in s.callers && (s.callers[s.locks[t]].Owning? || s.callers[s.locks[t]].Invoked?))
  }

  ghost predicate PcPlanned(p: Plan, asOf: Time, pc: Pc) {
    && (pc.Moving? ==>
          if pc.move.target == ESCALATED then DestinationOf(p, asOf) == Escalates(Rank(pc.run.state) + 1, pc.move.code)
          else Rank(pc.move.target) <= LastStage(DestinationOf(p, asOf)))
    && (pc.Invoked? && FateOf(p, pc.tool).Gives? ==> pc.outcome == FateOf(p, pc.tool).outcome)
  }

  ghost predicate RunPlanned(p: Plan, sp: Spine) {
    && Reached(sp.run) <= LastStage(DestinationOf(p, sp.run.asOf))
    && (if sp.run.state == ESCALATED then
          exists code :: DestinationOf(p, sp.run.asOf) == Escalates(sp.run.version, code) && EscalationCodes(sp.events) == [code]
        else EscalationCodes(sp.events) == [])
  }

  ghost predicate PlanInv(p: Plan, s: System) {
    && TypedPlan(p)
    && (forall t | t in s.spine.tools :: RowPlanned(p, t, s.spine.tools[t]))
    && (forall t | t in s.spine.tools && s.spine.tools[t] == Started :: OwnedOrAbandoned(p, s, t))
    && (forall c | c in s.callers :: PcPlanned(p, s.spine.run.asOf, s.callers[c]))
    && RunPlanned(p, s.spine)
  }

  lemma PlannedMatchesStored(p: Plan, tools: map<Tool, ToolRow>)
    requires AllGathered(tools) && TypedRows(tools)
    requires forall t | t in tools :: RowPlanned(p, t, tools[t])
    ensures PlannedEvidence(p) == ListEvidence(tools)
    ensures StopCode(p, T1_INVENTORY) == StopCode(p, T2_SALES_DEMAND) == StopCode(p, T3_SUPPLIER) == None
  {
    assert RowPlanned(p, T1_INVENTORY, tools[T1_INVENTORY]);
    assert RowPlanned(p, T2_SALES_DEMAND, tools[T2_SALES_DEMAND]);
    assert RowPlanned(p, T3_SUPPLIER, tools[T3_SUPPLIER]);
  }

  /** What a caller reads off a row that it did not complete is the plan's reason to stop there. */
  lemma RetryCodeIsStopCode(p: Plan, t: Tool, row: ToolRow)
    requires RowPlanned(p, t, row) && (row == Started ==> FateOf(p, t) == Abandoned)
    ensures StopCode(p, t) == if row.Completed? then None else Some(RetryCode(t, row))
  {
  }

  lemma EarlierToolsPassed(p: Plan, sp: Spine, t: Tool)
    requires TypedRows(sp.tools) && ToolReadyBefore(sp, t)
    requires forall u | u in sp.tools :: RowPlanned(p, u, sp.tools[u])
    ensures t != T1_INVENTORY ==> StopCode(p, T1_INVENTORY) == None
    ensures t in {T3_SUPPLIER, REASONING_TOOL} ==> StopCode(p, T2_SALES_DEMAND) == None
    ensures t == REASONING_TOOL ==> StopCode(p, T3_SUPPLIER) == None && PlannedEvidence(p) == ListEvidence(sp.tools)
  {
    if t == REASONING_TOOL {
      PlannedMatchesStored(p, sp.tools);
    } else {
      hide StopCode;
      assert Has(sp.tools, T1_INVENTORY) ==> RowPlanned(p, T1_INVENTORY, sp.tools[T1_INVENTORY]);
      assert Has(sp.tools, T2_SALES_DEMAND) ==> RowPlanned(p, T2_SALES_DEMAND, sp.tools[T2_SALES_DEMAND]);
    }
  }

  lemma QualityWasChecked(sp: Spine, run: RunRow)
    requires SpineInv(sp) && RunForward(run, sp.run) && run.state == REASONING
    ensures ValidateBundle(ListEvidence(sp.tools), sp.run.asOf) == None
  {
  }

  /** Whatever row ends a claim of `t`, what follows agrees with the plan's destination. */
  lemma AfterToolIsPlanned(p: Plan, sp: Spine, run: RunRow, t: Tool, row: ToolRow)
    requires SpineInv(sp) && RunForward(run, sp.run) && run.state == StageOf(t) && ToolReadyBefore(sp, t)
    requires forall u | u in sp.tools :: RowPlanned(p, u, sp.tools[u])
    requires RowPlanned(p, t, row) && (row == Started ==> FateOf(p, t) == Abandoned)
    ensures PcPlanned(p, sp.run.asOf, AfterTool(run, t, row))
  {
    RetryCodeIsStopCode(p, t, row);
    assert TypedRows(sp.tools);
    EarlierToolsPassed(p, sp, t);
    if t == REASONING_TOOL {
      QualityWasChecked(sp, run);
      hide *;
      ReasoningStops(p, sp.run.asOf, run, row);
    } else {
      hide *;
      EvidenceStops(p, sp.run.asOf, run, t, row);
    }
  }

  lemma EvidenceStops(p: Plan, asOf: Time, run: RunRow, t: Tool, row: ToolRow)
    requires t != REASONING_TOOL && run.state == StageOf(t)
    requires StopCode(p, t) == if row.Completed? then None else Some(RetryCode(t, row))
    requires t != T1_INVENTORY ==> StopCode(p, T1_INVENTORY) == None
    requires t == T3_SUPPLIER ==> StopCode(p, T2_SALES_DEMAND) == None
    ensures PcPlanned(p, asOf, AfterTool(run, t, row))
  {
    hide StopCode, RetryCode, ValidateBundle, PlannedEvidence;
  }

  lemma ReasoningStops(p: Plan, asOf: Time, run: RunRow, row: ToolRow)
    requires run.state == StageOf(REASONING_TOOL)
    requires StopCode(p, REASONING_TOOL) == if row.Completed? then None else Some(RetryCode(REASONING_TOOL, row))
    requires StopCode(p, T1_INVENTORY) == StopCode(p, T2_SALES_DEMAND) == StopCode(p, T3_SUPPLIER) == None
    requires ValidateBundle(PlannedEvidence(p), asOf) == None
    ensures PcPlanned(p, asOf, AfterTool(run, REASONING_TOOL, row))
  {
    hide StopCode, RetryCode, ValidateBundle, PlannedEvidence;
  }

  lemma DispatchIsPlanned(p: Plan, sp: Spine, run: RunRow)
    requires SpineInv(sp) && RowShape(run) && RunForward(run, sp.run)
    requires forall u | u in sp.tools :: RowPlanned(p, u, sp.tools[u])
    requires RunPlanned(p, sp)
    ensures PcPlanned(p, sp.run.asOf, Dispatch(sp, run))
  {
    if run.state == QUALITY_CHECKS {
      QualityIsPlanned(p, sp, run);
    } else if run.state == DRAFTING_RECOMMENDATION {
      DraftIsPlanned(p, sp, run);
    } else {
      StageIsPlanned(p, sp, run);
    }
    hide PcPlanned, DestinationOf, RunPlanned, SpineInv;
  }

  lemma StageIsPlanned(p: Plan, sp: Spine, run: RunRow)
    requires RunForward(run, sp.run) && RunPlanned(p, sp)
    requires run.state != QUALITY_CHECKS && run.state != DRAFTING_RECOMMENDATION
    ensures PcPlanned(p, sp.run.asOf, Dispatch(sp, run))
  {
    if Working(run.state) {
      ReachedIsPlanned(p, sp, run);
    }
    hide DestinationOf, QualityMove, DraftMove, RunPlanned;
  }

  /** A run is never beyond its destination, nor is anybody's record of it. */
  lemma ReachedIsPlanned(p: Plan, sp: Spine, run: RunRow)
    requires RunForward(run, sp.run) && Working(run.state) && RunPlanned(p, sp)
    ensures Rank(run.state) <= LastStage(DestinationOf(p, sp.run.asOf))
    ensures Rank(run.state) <= 1 ==> Rank(run.state) + 1 <= LastStage(DestinationOf(p, sp.run.asOf))
  {
  }

  lemma QualityIsPlanned(p: Plan, sp: Spine, run: RunRow)
    requires SpineInv(sp) && RowShape(run) && RunForward(run, sp.run) && run.state == QUALITY_CHECKS
    requires forall u | u in sp.tools :: RowPlanned(p, u, sp.tools[u])
    ensures PcPlanned(p, sp.run.asOf, Moving(run, QualityMove(sp.tools, run.asOf)))
  {
    EvidenceIsIn(sp, run);
    PlannedMatchesStored(p, sp.tools);
    hide *;
    QualityStops(p, sp.tools, sp.run.asOf, run);
  }

  lemma EvidenceIsIn(sp: Spine, run: RunRow)
    requires SpineInv(sp) && RunForward(run, sp.run) && run.state in {QUALITY_CHECKS, REASONING, DRAFTING_RECOMMENDATION}
    ensures AllGathered(sp.tools) && TypedRows(sp.tools) && run.asOf == sp.run.asOf
    ensures run.state != QUALITY_CHECKS ==> ValidateBundle(ListEvidence(sp.tools), sp.run.asOf) == None
  {
    hide ValidateBundle, ListEvidence, TypedRows;
  }

  lemma QualityStops(p: Plan, tools: map<Tool, ToolRow>, asOf: Time, run: RunRow)
    requires PlannedEvidence(p) == ListEvidence(tools) && run.asOf == asOf && run.state == QUALITY_CHECKS
    requires StopCode(p, T1_INVENTORY) == StopCode(p, T2_SALES_DEMAND) == StopCode(p, T3_SUPPLIER) == None
    ensures PcPlanned(p, asOf, Moving(run, QualityMove(tools, run.asOf)))
  {
    hide StopCode, ValidateBundle, ListEvidence, PlannedEvidence;
  }

  lemma DraftIsPlanned(p: Plan, sp: Spine, run: RunRow)
    requires SpineInv(sp) && RunForward(run, sp.run) && run.state == DRAFTING_RECOMMENDATION
    requires forall u | u in sp.tools :: RowPlanned(p, u, sp.tools[u])
    ensures PcPlanned(p, sp.run.asOf, Moving(run, DraftMove(sp.tools)))
  {
    EvidenceIsIn(sp, run);
    DraftingHasItsResult(sp, run);
    PlannedMatchesStored(p, sp.tools);
    assert RowPlanned(p, REASONING_TOOL, sp.tools[REASONING_TOOL]);
    assert StopCode(p, REASONING_TOOL) == None;
    hide *;
    NothingStops(p, sp.run.asOf, run, DraftMove(sp.tools));
  }

  lemma NothingStops(p: Plan, asOf: Time, run: RunRow, m: Move)
    requires StopCode(p, T1_INVENTORY) == StopCode(p, T2_SALES_DEMAND) == StopCode(p, T3_SUPPLIER) == None
    requires StopCode(p, REASONING_TOOL) == None
    requires ValidateBundle(PlannedEvidence(p), asOf) == None && m.target == AWAITING_HUMAN
    ensures PcPlanned(p, asOf, Moving(run, m))
  {
    hide StopCode, ValidateBundle, PlannedEvidence;
  }

  /** The row a completed claim writes is the one the plan foresees. */
  lemma CompletionIsPlanned(p: Plan, sp: Spine, pc: Pc)
    requires SpineInv(sp) && PcInv(sp, pc) && pc.Invoked? && TypedPlan(p)
    requires forall u | u in sp.tools :: RowPlanned(p, u, sp.tools[u])
    requires FateOf(p, pc.tool) == Gives(pc.outcome)
    ensures RowPlanned(p, pc.tool, RowFor(pc.bundle, pc.outcome))
  {
    if pc.tool == REASONING_TOOL {
      PlannedMatchesStored(p, sp.tools);
    }
  }

  lemma MoveIsPlanned(p: Plan, sp: Spine, run: RunRow, m: Move, now: Time)
    requires SpineInv(sp) && PcInv(sp, Moving(run, m)) && CasWins(sp, run)
    requires RunPlanned(p, sp) && PcPlanned(p, sp.run.asOf, Moving(run, m))
    ensures RunPlanned(p, Transitioned(sp, run, m, now))
    ensures Transitioned(sp, run, m, now).run.asOf == sp.run.asOf
  {
    JustifiedMove(sp, run, m);
    hide SpineInv, PcInv, DestinationOf, CasWins, RunPlanned;
    if m.target == ESCALATED {
      EscalationIsPlanned(p, sp, m, now);
    } else {
      ForwardIsPlanned(p, sp, m, now);
    }
  }

  lemma EscalationIsPlanned(p: Plan, sp: Spine, m: Move, now: Time)
    requires RunPlanned(p, sp) && Working(sp.run.state) && sp.run.version == Rank(sp.run.state)
    requires m.target == ESCALATED && m.eventType == RUN_ESCALATED
    requires DestinationOf(p, sp.run.asOf) == Escalates(Rank(sp.run.state) + 1, m.code)
    ensures RunPlanned(p, Transitioned(sp, sp.run, m, now))
  {
    CodesAppend(sp.events, Event(m.eventType, Some(sp.run.state), Some(m.target), m.code));
    hide DestinationOf, EscalationCodes;
    assert [] + [m.code] == [m.code];
  }

  lemma ForwardIsPlanned(p: Plan, sp: Spine, m: Move, now: Time)
    requires RunPlanned(p, sp) && Working(sp.run.state) && m.target != ESCALATED && m.eventType != RUN_ESCALATED
    requires Rank(m.target) <= LastStage(DestinationOf(p, sp.run.asOf))
    ensures RunPlanned(p, Transitioned(sp, sp.run, m, now))
  {
    CodesAppend(sp.events, Event(m.eventType, Some(sp.run.state), Some(m.target), m.code));
    hide DestinationOf, EscalationCodes;
    assert EscalationCodes(sp.events) + [] == EscalationCodes(sp.events);
  }

  lemma JustifiedMove(sp: Spine, run: RunRow, m: Move)
    requires SpineInv(sp) && PcInv(sp, Moving(run, m)) && CasWins(sp, run)
    ensures run == sp.run && Working(run.state) && run.version == Rank(run.state)
    ensures m.eventType == RUN_ESCALATED <==> m.target == ESCALATED
  {
    WinnersAreCurrent(sp, run, m);
    hide StageInv, TypedRows, RunForward, ValidateBundle, ListEvidence;
  }

  lemma LogIsPlanned(p: Plan, sp: Spine, kind: EventType, stale: RunState, code: string)
    requires RunPlanned(p, sp) && kind in {CONTROL_REJECTED, REVIEW_REJECTED, INTAKE_REJECTED}
    ensures RunPlanned(p, WithEvent(sp, Rejection(kind, stale, code)))
  {
    CodesAppend(sp.events, Rejection(kind, stale, code));
    assert EscalationCodes(sp.events) + [] == EscalationCodes(sp.events);
  }

  lemma ClosingIsPlanned(p: Plan, sp: Spine, target: RunState, d: Option<Decision>)
    requires RunPlanned(p, sp) && sp.run.state == AWAITING_HUMAN
    ensures var decided := Event(REVIEW_DECIDED, Some(AWAITING_HUMAN), Some(target), "");
            var closed := Event(RUN_CLOSED, Some(target), Some(CLOSED), "");
            RunPlanned(p, Spine(sp.run.(state := CLOSED, version := sp.run.version + 2), sp.tools,
                                sp.events + [decided, closed], d))
  {
    hide DestinationOf;
    var decided := Event(REVIEW_DECIDED, Some(AWAITING_HUMAN), Some(target), "");
    var closed := Event(RUN_CLOSED, Some(target), Some(CLOSED), "");
    CodesAppend(sp.events, decided);
    CodesAppend(sp.events + [decided], closed);
    assert sp.events + [decided, closed] == (sp.events + [decided]) + [closed];
  }

  lemma ReviewIsPlanned(p: Plan, sp: Spine, r: Review, stale: RunState)
    requires RunPlanned(p, sp)
    ensures RunPlanned(p, ServiceReviewed(sp, r, stale))
    ensures ServiceReviewed(sp, r, stale).run.asOf == sp.run.asOf
  {
    hide RunPlanned, ValidCitations, ListEvidence, IdsOf;
    if !r.hasRole {
      LogIsPlanned(p, sp, CONTROL_REJECTED, stale, "REVIEWER_ROLE_REQUIRED");
    } else if r.edited.Some? && !ValidCitations(r.edited.value, IdsOf(ListEvidence(sp.tools))) {
      LogIsPlanned(p, sp, CONTROL_REJECTED, stale, "INVALID_EDITED_PAYLOAD");
    } else if ReviewError(sp, r).Some? {
      LogIsPlanned(p, sp, REVIEW_REJECTED, sp.run.state, ReviewError(sp, r).value);
    } else {
      ClosingIsPlanned(p, sp, ReviewTarget(r.action), Reviewed(sp, r).decision);
    }
  }

  lemma ToolRowIsPlanned(p: Plan, sp: Spine, t: Tool, row: ToolRow)
    requires RunPlanned(p, sp)
    ensures RunPlanned(p, WithTool(sp, t, row))
  {
  }

  // ------------------------------------------------------- preservation

  /** The rows and the log after a caller's step. */
  lemma AdvancePlansRows(p: Plan, s: System, c: CallerId, now: Time)
    requires Inv(s) && PlanInv(p, s) && CanAdvance(s, c) && Follows(p, s, Advance(c, now))
    ensures var s' := Advanced(s, c, now);
            && (forall t | t in s'.spine.tools :: RowPlanned(p, t, s'.spine.tools[t]))
            && RunPlanned(p, s'.spine)
            && s'.spine.run.asOf == s.spine.run.asOf
  {
    hide SpineInv, RunPlanned, CallInv, LockInv, PcInv, Dispatch, AfterTool, StopCode, RowFor;
    var pc := s.callers[c];
    assert PcInv(s.spine, pc);
    if !ActsOnRows(pc) {
      LookingIsSound(s, c, now);
      return;
    }
    match pc
    case Moving(run, m) =>
      MoveStep(s.spine, run, m, now);
      if CasWins(s.spine, run) {
        MoveIsPlanned(p, s.spine, run, m, now);
      }
    case Invoked(_, t, b, o) =>
      CompletionIsPlanned(p, s.spine, pc);
      ToolRowIsPlanned(p, s.spine, t, RowFor(b, o));
    case Vacant(run, t, b) =>
      InsertStep(s.spine, run, t, b);
      ToolRowIsPlanned(p, s.spine, t, Started);
    case Rejecting(_, observed) => LogIsPlanned(p, s.spine, CONTROL_REJECTED, observed, "STATE_VERSION_CONFLICT");
  }

  lemma ActingPlansNothing(s: System, c: CallerId, now: Time)
    requires CanAdvance(s, c) && ActsOnRows(s.callers[c])
    ensures var s' := Advanced(s, c, now);
            c in s'.callers ==> !s'.callers[c].Moving? && !s'.callers[c].Invoked?
  {
    hide CanTransition, Transitioned, RowFor;
  }

  lemma AdvancePlansCaller(p: Plan, s: System, c: CallerId, now: Time)
    requires Inv(s) && PlanInv(p, s) && CanAdvance(s, c) && Follows(p, s, Advance(c, now))
    ensures var s' := Advanced(s, c, now);
            c in s'.callers ==> PcPlanned(p, s.spine.run.asOf, s'.callers[c])
  {
    hide SpineInv, RunPlanned, CallInv, PcInv, Dispatch, AfterTool, StopCode, RowFor, DestinationOf;
    var pc := s.callers[c];
    assert PcInv(s.spine, pc);
    if ActsOnRows(pc) {
      ActingPlansNothing(s, c, now);
      return;
    }
    match pc
    case Ready(run) =>
      assert RowShape(run) && RunForward(run, s.spine.run) by { PcParts(s.spine, pc); }
      DispatchIsPlanned(p, s.spine, run);
    case Holding(run, t, b) =>
      PcParts(s.spine, pc);
      if t in s.spine.tools {
        AfterToolIsPlanned(p, s.spine, run, t, s.spine.tools[t]);
      }
    case Closing(run, t, row) =>
      PcParts(s.spine, pc);
      AfterToolIsPlanned(p, s.spine, run, t, row);
    case _ =>
  }

  lemma PcParts(sp: Spine, pc: Pc)
    requires PcInv(sp, pc)
    ensures RowShape(pc.run) && RunForward(pc.run, sp.run)
    ensures pc.Holding? || pc.Closing? ==> pc.run.state == StageOf(pc.tool) && ToolReadyBefore(sp, pc.tool)
    ensures pc.Closing? ==> pc.tool in sp.tools && sp.tools[pc.tool] == pc.row && pc.row != Started
    ensures pc.Owning? || pc.Invoked? ==> pc.tool in sp.tools && sp.tools[pc.tool] == Started
  {
  }

  lemma AdvanceKeepsOwners(p: Plan, s: System, c: CallerId, now: Time)
    requires Inv(s) && PlanInv(p, s) && CanAdvance(s, c)
    ensures var s' := Advanced(s, c, now);
            forall t | t in s'.spine.tools && s'.spine.tools[t] == Started :: OwnedOrAbandoned(p, s', t)
  {
    hide SpineInv, PcInv, RunPlanned, CallInv, LockInv, Rely, PcPlanned, RowPlanned, OwnedOrAbandoned, Advanced, TypedPlan;
    var s', held := Advanced(s, c, now), HeldTool(s.callers[c]);
    AdvanceIsSound(s, c, now);
    AdvanceTouches(s, c, now);
    AdvanceKeepsLocks(s, s', c);
    forall t | t in s'.spine.tools && s'.spine.tools[t] == Started
      ensures OwnedOrAbandoned(p, s', t)
    {
      if Some(t) != held {
        StillOwned(p, s, s', c, t);
      } else {
        AdvanceOwnership(s, c, now);
        assert t in s.spine.tools && s.spine.tools[t] == Started ==> OwnedOrAbandoned(p, s, t);
        OwnToolIsOwned(p, s, s', c, t);
      }
    }
  }

  lemma StillOwned(p: Plan, s: System, s': System, c: CallerId, t: Tool)
    requires LockInv(s) && OwnedOrAbandoned(p, s, t) && c in s.callers && HeldTool(s.callers[c]) != Some(t)
    requires c in s'.callers && s'.callers == s.callers[c := s'.callers[c]]
    requires t in s.locks ==> t in s'.locks && s'.locks[t] == s.locks[t]
    ensures OwnedOrAbandoned(p, s', t)
  {
  }

  lemma OwnToolIsOwned(p: Plan, s: System, s': System, c: CallerId, t: Tool)
    requires LockInv(s) && LockInv(s') && CanAdvance(s, c) && c in s'.callers && HeldTool(s.callers[c]) == Some(t)
    requires t in s.spine.tools && s.spine.tools[t] == Started ==> OwnedOrAbandoned(p, s, t)
    requires t in s'.spine.tools && s'.spine.tools[t] == Started
    requires var pc := s.callers[c];
             && (pc.Vacant? ==> s'.callers[c].Owning? && s'.callers[c].tool == pc.tool)
             && (pc.Holding? || pc.Closing? ==> s'.spine == s.spine)
             && (pc.Invoked? ==> s'.spine.tools[pc.tool] != Started)
    ensures OwnedOrAbandoned(p, s', t)
  {
  }

  lemma AdvanceOwnership(s: System, c: CallerId, now: Time)
    requires CanAdvance(s, c) && PcInv(s.spine, s.callers[c])
    ensures var s', pc := Advanced(s, c, now), s.callers[c];
            && (pc.Vacant? ==> c in s'.callers && s'.callers[c].Owning? && s'.callers[c].tool == pc.tool)
            && (pc.Holding? || pc.Closing? ==> s'.spine == s.spine)
            && (pc.Invoked? ==> pc.tool in s'.spine.tools && s'.spine.tools[pc.tool] != Started)
  {
    hide ToolReady, MoveJustified, RowShape, RunForward, CanTransition;
  }

  lemma AdvanceKeepsPlan(p: Plan, s: System, c: CallerId, now: Time)
    requires Inv(s) && PlanInv(p, s) && CanAdvance(s, c) && Follows(p, s, Advance(c, now))
    ensures PlanInv(p, Advanced(s, c, now))
  {
    hide SpineInv, RunPlanned, CallInv, LockInv, PcInv, Rely, StopCode, PcPlanned, RowPlanned, OwnedOrAbandoned, Advanced;
    AdvanceIsSound(s, c, now);
    AdvancePlansRows(p, s, c, now);
    AdvancePlansCaller(p, s, c, now);
    AdvanceKeepsOwners(p, s, c, now);
  }

  lemma CrashKeepsPlan(p: Plan, s: System, c: CallerId)
    requires Inv(s) && PlanInv(p, s) && Follows(p, s, Crash(c))
    ensures PlanInv(p, Dropped(s, c))
  {
    hide SpineInv, RunPlanned, CallInv, Rely, StopCode, PcPlanned, RowPlanned, PcInv;
    var s' := Dropped(s, c);
    forall t | t in s'.spine.tools && s'.spine.tools[t] == Started
      ensures OwnedOrAbandoned(p, s', t)
    {
      assert OwnedOrAbandoned(p, s, t);
      if FateOf(p, t) != Abandoned {
        assert HeldTool(s.callers[s.locks[t]]) == Some(t);
        assert s.locks[t] != c;
      }
    }
  }

  lemma InvokeKeepsPlan(p: Plan, s: System, c: CallerId, o: Outcome)
    requires Inv(s) && PlanInv(p, s) && CanInvoke(s, c, o) && Follows(p, s, Invoke(c, o))
    ensures PlanInv(p, Apply(s, Invoke(c, o)))
  {
    hide SpineInv, RunPlanned, CallInv, Rely, StopCode, RowPlanned, PcInv;
    var s' := Apply(s, Invoke(c, o));
    forall t | t in s'.spine.tools && s'.spine.tools[t] == Started
      ensures OwnedOrAbandoned(p, s', t)
    {
      assert OwnedOrAbandoned(p, s, t);
    }
  }

  lemma JoinKeepsPlan(p: Plan, s: System, c: CallerId)
    requires PlanInv(p, s)
    ensures PlanInv(p, Apply(s, Join(c)))
  {
    hide RunPlanned, RowPlanned, StopCode, DestinationOf;
    var s' := Apply(s, Join(c));
    if c !in s.callers {
      assert s'.callers == s.callers[c := Ready(s.spine.run)];
      forall t | t in s'.spine.tools && s'.spine.tools[t] == Started
        ensures OwnedOrAbandoned(p, s', t)
      {
        assert OwnedOrAbandoned(p, s, t);
      }
    }
  }

  lemma StepKeepsPlan(p: Plan, s: System, step: Step)
    requires Inv(s) && PlanInv(p, s) && Follows(p, s, step)
    ensures PlanInv(p, Apply(s, step))
  {
    hide SpineInv, RunPlanned, CallInv, LockInv, PcInv, Rely, StopCode, RowPlanned, OwnedOrAbandoned;
    match step
    case Join(c) => JoinKeepsPlan(p, s, c);
    case Advance(c, now) =>
      if CanAdvance(s, c) {
        AdvanceKeepsPlan(p, s, c, now);
      }
    case Invoke(c, o) =>
      if CanInvoke(s, c, o) {
        InvokeKeepsPlan(p, s, c, o);
      }
    case Crash(c) => CrashKeepsPlan(p, s, c);
    case Decide(r, stale) =>
      ReviewIsPlanned(p, s.spine, r, stale);
      SpineStepKeepsPlan(p, s, ServiceReviewed(s.spine, r, stale));
    case LogRejection(kind, stale, code) =>
      if kind in {CONTROL_REJECTED, REVIEW_REJECTED, INTAKE_REJECTED} {
        LogIsPlanned(p, s.spine, kind, stale, code);
        SpineStepKeepsPlan(p, s, WithEvent(s.spine, Rejection(kind, stale, code)));
      }
  }

  lemma SpineStepKeepsPlan(p: Plan, s: System, sp: Spine)
    requires PlanInv(p, s) && RunPlanned(p, sp) && sp.tools == s.spine.tools && sp.run.asOf == s.spine.run.asOf
    ensures PlanInv(p, s.(spine := sp))
  {
    hide RunPlanned, RowPlanned, StopCode, DestinationOf;
    forall t | t in sp.tools && sp.tools[t] == Started
      ensures OwnedOrAbandoned(p, s.(spine := sp), t)
    {
      assert OwnedOrAbandoned(p, s, t);
    }
  }

  lemma StartIsPlanned(p: Plan, g: Config)
    requires TypedPlan(p)
    ensures PlanInv(p, Start(g))
  {
    var events := Start(g).spine.events;
    assert events[..0] == [];
    CodesAppend([], events[0]);
    assert [] + [events[0]] == events;
    assert EscalationCodes([]) == [];
  }

  lemma {:induction false} RunKeepsPlan(p: Plan, g: Config, run: seq<Step>)
    requires TypedPlan(p) && FollowsPlan(p, g, run)
    ensures PlanInv(p, After(g, run))
  {
    hide PlanInv, Inv;
    if run == [] {
      StartIsPlanned(p, g);
    } else {
      RunKeepsPlan(p, g, Before(run));
      RunKeepsInv(g, Before(run));
      StepKeepsPlan(p, After(g, Before(run)), Last(run));
    }
  }

  // ---------------------------------------------------------------- theorems

  /**
   Confluence: under a plan, a run that no longer works has reached its one destination, whatever the
   interleaving: escalated from the first failing stage with that stage's code in the one run_escalated event,
   or drafted (then perhaps reviewed) with none.
   */
  lemma Confluence(p: Plan, g: Config, run: seq<Step>)
    requires TypedPlan(p) && FollowsPlan(p, g, run)
    ensures var sp := After(g, run).spine;
            var d := DestinationOf(p, g.asOf);
            && |EscalationCodes(sp.events)| <= 1
            && (sp.run.state == ESCALATED ==>
                  d.Escalates? && sp.run.version == d.version && EscalationCodes(sp.events) == [d.code])
            && (sp.run.state in {AWAITING_HUMAN, CLOSED} ==>
                  && d.Drafts? && EscalationCodes(sp.events) == [] && sp.run.draft.Some?
                  && p.reasoning == Gives(Yields(Reasoned(sp.run.draft.value))))
            && (Working(sp.run.state) ==> sp.run.version <= LastStage(d) && EscalationCodes(sp.events) == [])
  {
    hide *;
    RunKeepsPlan(p, g, run);
    RunKeepsInv(g, run);
    ConfigStays(g, run);
    SpineHolds(After(g, run));
    PlanHolds(p, After(g, run));
    PlannedSpine(p, After(g, run).spine);
  }

  lemma PlanHolds(p: Plan, s: System)
    requires PlanInv(p, s)
    ensures RunPlanned(p, s.spine)
    ensures REASONING_TOOL in s.spine.tools ==> RowPlanned(p, REASONING_TOOL, s.spine.tools[REASONING_TOOL])
  {
  }

  lemma PlannedSpine(p: Plan, sp: Spine)
    requires SpineInv(sp) && RunPlanned(p, sp)
    requires REASONING_TOOL in sp.tools ==> RowPlanned(p, REASONING_TOOL, sp.tools[REASONING_TOOL])
    ensures var d := DestinationOf(p, sp.run.asOf);
            && |EscalationCodes(sp.events)| <= 1
            && (sp.run.state == ESCALATED ==>
                  d.Escalates? && sp.run.version == d.version && EscalationCodes(sp.events) == [d.code])
            && (sp.run.state in {AWAITING_HUMAN, CLOSED} ==>
                  && d.Drafts? && EscalationCodes(sp.events) == [] && sp.run.draft.Some?
                  && p.reasoning == Gives(Yields(Reasoned(sp.run.draft.value))))
            && (Working(sp.run.state) ==> sp.run.version <= LastStage(d) && EscalationCodes(sp.events) == [])
  {
    DestinationsStopEarly(p, sp.run.asOf);
    hide DestinationOf, EscalationCodes, StopCode;
  }

  lemma DestinationsStopEarly(p: Plan, asOf: Time)
    ensures LastStage(DestinationOf(p, asOf)) <= 6
    ensures LastStage(DestinationOf(p, asOf)) == 6 <==> DestinationOf(p, asOf).Drafts?
  {
  }

  /** Whoever returns has seen the run at its destination. */
  lemma ReturnedCallersAgree(p: Plan, g: Config, run: seq<Step>, c: CallerId)
    requires TypedPlan(p) && FollowsPlan(p, g, run)
    requires c in After(g, run).callers && After(g, run).callers[c].Returned?
    ensures var d, row := DestinationOf(p, g.asOf), After(g, run).callers[c].run;
            && !Working(After(g, run).spine.run.state)
            && (row.state == ESCALATED ==> d.Escalates? && row.version == d.version)
            && (row.state != ESCALATED ==>
                  d.Drafts? && row.draft.Some? && p.reasoning == Gives(Yields(Reasoned(row.draft.value))))
  {
    Confluence(p, g, run);
    RunKeepsInv(g, run);
    hide LockInv, CallInv, DestinationOf;
    ReturnedSawTheEnd(After(g, run).spine, After(g, run).callers[c]);
    ReturnedDraft(g, run, c);
  }

  lemma ReturnedSawTheEnd(sp: Spine, pc: Pc)
    requires SpineInv(sp) && PcInv(sp, pc) && pc.Returned?
    ensures !Working(sp.run.state)
    ensures pc.run.state == ESCALATED ==> sp.run == pc.run
    ensures pc.run.state != ESCALATED ==> sp.run.state in {AWAITING_HUMAN, CLOSED} && pc.run.draft.Some?
  {
  }

  /** The draft of a returned record is the draft the run still has. */
  lemma {:induction false} ReturnedDraft(g: Config, run: seq<Step>, c: CallerId)
    requires c in After(g, run).callers
    ensures var row, now := After(g, run).callers[c].run, After(g, run).spine.run;
            row.draft.Some? ==> now.draft == row.draft
  {
    hide SpineInv, PcInv, LockInv, CallInv, Dispatch, AfterTool;
    if run != [] {
      var s, step := After(g, Before(run)), Last(run);
      RunKeepsInv(g, Before(run));
      StepKeepsInv(s, step);
      DraftsStay(s.spine, After(g, run).spine);
      if c in s.callers {
        ReturnedDraft(g, Before(run), c);
        SeenRow(s, step, c);
      }
    }
  }

  lemma DraftsStay(a: Spine, b: Spine)
    requires SpineInv(a) && SpineInv(b) && Rely(a, b)
    ensures a.run.draft.Some? ==> b.run.draft == a.run.draft
  {
  }

  lemma SeenRow(s: System, step: Step, c: CallerId)
    requires Inv(s) && c in s.callers && c in Apply(s, step).callers
    ensures Apply(s, step).callers[c].run == s.callers[c].run || Apply(s, step).callers[c].run in {s.spine.run, Apply(s, step).spine.run}
  {
    hide SpineInv, PcInv, LockInv, CallInv;
  }

  /** The draft that a plan leads to, if it leads to one. */
  function PlannedDraft(p: Plan, asOf: Time): Option<ReasoningResult> {
    if DestinationOf(p, asOf).Drafts? && p.reasoning.Gives? && p.reasoning.outcome.Yields?
       && p.reasoning.outcome.result.Reasoned?
    then Some(p.reasoning.outcome.result.result) else None
  }

  /** At rest, the run, its draft and its escalation log are functions of the plan and of whether it was decided. */
  lemma RestIsPlanned(p: Plan, g: Config, run: seq<Step>)
    requires TypedPlan(p) && FollowsPlan(p, g, run) && !Working(After(g, run).spine.run.state)
    ensures var sp, d := After(g, run).spine, DestinationOf(p, g.asOf);
            && sp.run.state == (if d.Escalates? then ESCALATED else if sp.decision.Some? then CLOSED else AWAITING_HUMAN)
            && sp.run.version == (if d.Escalates? then d.version else if sp.decision.Some? then 8 else 6)
            && EscalationCodes(sp.events) == (if d.Escalates? then [d.code] else [])
            && sp.run.draft == PlannedDraft(p, g.asOf)
  {
    hide DestinationOf, EscalationCodes, FollowsPlan, TypedPlan, SpineInv, PcInv, CallInv, LockInv;
    Confluence(p, g, run);
    RunKeepsInv(g, run);
    RestingRow(After(g, run).spine);
  }

  lemma RestingRow(sp: Spine)
    requires SpineInv(sp) && !Working(sp.run.state)
    ensures sp.run.state == ESCALATED ==> sp.run.draft == None && sp.decision == None
    ensures sp.run.state != ESCALATED ==>
              && sp.run.state == (if sp.decision.Some? then CLOSED else AWAITING_HUMAN)
              && sp.run.version == (if sp.decision.Some? then 8 else 6)
  {
  }

  /** Two interleavings of the same plan that both come to rest end alike. */
  lemma SameFinalState(p: Plan, g: Config, a: seq<Step>, b: seq<Step>)
    requires TypedPlan(p) && FollowsPlan(p, g, a) && FollowsPlan(p, g, b)
    requires !Working(After(g, a).spine.run.state) && !Working(After(g, b).spine.run.state)
    ensures var x, y := After(g, a).spine, After(g, b).spine;
            && (x.run.state == ESCALATED <==> y.run.state == ESCALATED)
            && (x.run.state == ESCALATED ==> x.run.version == y.run.version)
            && EscalationCodes(x.events) == EscalationCodes(y.events)
            && x.run.draft == y.run.draft
  {
    hide *;
    RestIsPlanned(p, g, a);
    RestIsPlanned(p, g, b);
  }
}
