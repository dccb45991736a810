/** Every step of the control spine keeps its invariant, so it holds in all runs. */
module ControlInvariant {
  import opened Wrappers
  import opened Evidence
  import opened ControlModel
  import opened ControlSystem

  ghost predicate LockInv(s: System) {
    && (forall c | c in s.callers && HeldTool(s.callers[c]).Some? ::
          HeldTool(s.callers[c]).value in s.locks && s.locks[HeldTool(s.callers[c]).value] == c)
    && (forall t | t in s.locks :: s.locks[t] in s.callers && HeldTool(s.callers[s.locks[t]]) == Some(t))
  }

  ghost predicate CallInv(s: System) {
    && (forall k | 0 <= k < |s.calls| :: s.calls[k].tool in s.spine.tools)
    && (forall j, k | 0 <= j < k < |s.calls| :: s.calls[j].tool != s.calls[k].tool)
    && (forall c, k | c in s.callers && s.callers[c].Owning? && 0 <= k < |s.calls| :: s.calls[k].tool != s.callers[c].tool)
    && (forall k | 0 <= k < |s.calls| && s.calls[k].tool == REASONING_TOOL ::
          && AllGathered(s.spine.tools)
          && s.calls[k].bundle == ListEvidence(s.spine.tools)
          && ValidateBundle(s.calls[k].bundle, s.spine.run.asOf) == None)
  }

  ghost predicate Inv(s: System) {
    && SpineInv(s.spine)
    && (forall c | c in s.callers :: PcInv(s.spine, s.callers[c]))
    && LockInv(s)
    && CallInv(s)
  }

  // ------------------------------------------------------- the rows' moves

  lemma CasMovesOn(sp: Spine, seen: RunRow, m: Move, now: Time)
    requires SpineInv(sp) && RowShape(seen) && RunForward(seen, sp.run) && MoveJustified(sp, seen, m) && CasWins(sp, seen)
    ensures seen == sp.run
    ensures SpineInv(Transitioned(sp, seen, m, now)) && Rely(sp, Transitioned(sp, seen, m, now))
  {
    CasKeepsSpine(sp, m, now);
    CasIsForward(sp, m, now);
    hide SpineInv, MoveJustified, Transitioned, Rely;
  }

  lemma CasKeepsSpine(sp: Spine, m: Move, now: Time)
    requires SpineInv(sp) && MoveJustified(sp, sp.run, m)
    ensures SpineInv(Transitioned(sp, sp.run, m, now))
  {
    hide ValidateBundle, ListEvidence, ValidCitations;
  }

  lemma CasIsForward(sp: Spine, m: Move, now: Time)
    requires MoveJustified(sp, sp.run, m) && RowShape(sp.run)
    ensures Rely(sp, Transitioned(sp, sp.run, m, now))
  {
    hide ValidateBundle, ListEvidence;
  }

  lemma ToolRowMovesOn(sp: Spine, t: Tool, row: ToolRow, bundle: seq<Evidence>)
    requires SpineInv(sp)
    requires if row == Started then t !in sp.tools else t in sp.tools && sp.tools[t] == Started
    requires ToolReady(sp, t, bundle) && Reached(sp.run) >= Rank(StageOf(t))
    requires row.Completed? ==>
               if t == REASONING_TOOL then row.result.Reasoned? && ValidCitations(row.result.result, IdsOf(bundle))
               else row.result.Item? && row.result.item.tool == t
    ensures SpineInv(WithTool(sp, t, row)) && Rely(sp, WithTool(sp, t, row))
  {
    var after := WithTool(sp, t, row);
    if AllGathered(sp.tools) {
      EvidenceStays(sp.tools, after.tools);
    }
    assert t == REASONING_TOOL ==> AllGathered(sp.tools);
  }

  lemma ReviewMovesOn(sp: Spine, r: Review, stale: RunState)
    requires SpineInv(sp)
    ensures SpineInv(ServiceReviewed(sp, r, stale)) && Rely(sp, ServiceReviewed(sp, r, stale))
  {
    ReviewedMovesOn(sp, r);
    EventMovesOn(sp, Rejection(CONTROL_REJECTED, stale, "REVIEWER_ROLE_REQUIRED"));
    EventMovesOn(sp, Rejection(CONTROL_REJECTED, stale, "INVALID_EDITED_PAYLOAD"));
    hide SpineInv, Rely, Reviewed, ValidCitations, ListEvidence, IdsOf;
  }

  lemma ClosedMovesOn(sp: Spine, events: seq<Event>, d: Decision)
    requires SpineInv(sp) && sp.run.state == AWAITING_HUMAN
    ensures var after := Spine(sp.run.(state := CLOSED, version := sp.run.version + 2), sp.tools, events, Some(d));
            SpineInv(after) && Rely(sp, after) && after.run.version == 8
  {
    hide ValidateBundle, ListEvidence, ValidCitations, TypedRows;
  }

  /** The locked transaction either logs a refusal or closes the run at version 8. */
  lemma ReviewedMovesOn(sp: Spine, r: Review)
    requires SpineInv(sp)
    ensures SpineInv(Reviewed(sp, r)) && Rely(sp, Reviewed(sp, r))
    ensures ReviewError(sp, r) == None ==>
              sp.decision == None && Reviewed(sp, r).run.state == CLOSED && Reviewed(sp, r).run.version == 8
  {
    var error := ReviewError(sp, r);
    if error.Some? {
      hide SpineInv, Rely, ReviewError;
      EventMovesOn(sp, Rejection(REVIEW_REJECTED, sp.run.state, error.value));
    } else {
      hide SpineInv, Rely;
      ClosedMovesOn(sp, Reviewed(sp, r).events, Reviewed(sp, r).decision.value);
    }
  }

  // ---------------------------------------------------------- the callers

  /** Other callers are undisturbed by a step that leaves the rows of their tools alone. */
  lemma OthersStay(s: System, sp: Spine, c: CallerId)
    requires Inv(s) && Rely(s.spine, sp)
    requires forall t | t !in s.locks || s.locks[t] != c :: (t in s.spine.tools <==> t in sp.tools)
    requires forall t | t in s.spine.tools && (t !in s.locks || s.locks[t] != c) :: sp.tools[t] == s.spine.tools[t]
    ensures forall d | d in s.callers && d != c :: PcInv(sp, s.callers[d])
  {
    hide PcInv, SpineInv;
    forall d | d in s.callers && d != c
      ensures PcInv(sp, s.callers[d])
    {
      PcStable(s.spine, sp, s.callers[d]);
    }
  }

  lemma ToolRowStaysReady(sp: Spine, t: Tool, row: ToolRow, b: seq<Evidence>)
    requires ToolReady(sp, t, b)
    requires t in sp.tools ==> sp.tools[t] == Started
    ensures ToolReady(WithTool(sp, t, row), t, b)
  {
    if AllGathered(sp.tools) {
      EvidenceStays(sp.tools, WithTool(sp, t, row).tools);
    }
  }

  lemma DispatchIsJustified(sp: Spine, run: RunRow)
    requires SpineInv(sp) && RowShape(run) && RunForward(run, sp.run)
    ensures PcInv(sp, Dispatch(sp, run))
  {
    if run.state == QUALITY_CHECKS {
      QualityIsJustified(sp, run);
    } else if run.state == DRAFTING_RECOMMENDATION {
      DraftIsJustified(sp, run);
    } else {
      StageIsJustified(sp, run);
    }
    hide SpineInv, PcInv, RowShape, RunForward, QualityMove, DraftMove;
  }

  lemma StageIsJustified(sp: Spine, run: RunRow)
    requires SpineInv(sp) && RowShape(run) && RunForward(run, sp.run)
    requires run.state != QUALITY_CHECKS && run.state != DRAFTING_RECOMMENDATION
    ensures PcInv(sp, Dispatch(sp, run))
  {
    hide QualityMove, DraftMove, ValidateBundle, ListEvidence, ValidCitations;
  }

  lemma QualityIsJustified(sp: Spine, run: RunRow)
    requires RowShape(run) && RunForward(run, sp.run) && run.state == QUALITY_CHECKS
    ensures PcInv(sp, Moving(run, QualityMove(sp.tools, run.asOf)))
  {
    hide ValidateBundle, ListEvidence;
  }

  lemma DraftIsJustified(sp: Spine, run: RunRow)
    requires SpineInv(sp) && RowShape(run) && RunForward(run, sp.run) && run.state == DRAFTING_RECOMMENDATION
    ensures PcInv(sp, Moving(run, DraftMove(sp.tools)))
  {
    DraftingHasItsResult(sp, run);
    hide *;
    ResultIsJustified(sp, run, DraftMove(sp.tools));
  }

  lemma ResultIsJustified(sp: Spine, run: RunRow, m: Move)
    requires RowShape(run) && RunForward(run, sp.run) && run.state == DRAFTING_RECOMMENDATION
    requires Has(sp.tools, REASONING_TOOL) && sp.tools[REASONING_TOOL].result.Reasoned?
    requires m == Move(AWAITING_HUMAN, DRAFT_READY, "", Some(sp.tools[REASONING_TOOL].result.result))
    ensures PcInv(sp, Moving(run, m))
  {
    hide RowShape, RunForward;
  }

  lemma DraftingHasItsResult(sp: Spine, run: RunRow)
    requires SpineInv(sp) && RunForward(run, sp.run) && run.state == DRAFTING_RECOMMENDATION
    ensures Has(sp.tools, REASONING_TOOL) && sp.tools[REASONING_TOOL].result.Reasoned?
    ensures DraftMove(sp.tools) == Move(AWAITING_HUMAN, DRAFT_READY, "", Some(sp.tools[REASONING_TOOL].result.result))
  {
    hide ValidateBundle, ListEvidence, IdsOf, ValidCitations;
  }

  lemma AfterToolIsJustified(sp: Spine, run: RunRow, t: Tool)
    requires SpineInv(sp) && RowShape(run) && RunForward(run, sp.run)
    requires run.state == StageOf(t) && ToolReadyBefore(sp, t) && t in sp.tools
    ensures PcInv(sp, AfterTool(run, t, sp.tools[t]))
  {
  }

  lemma MoveStep(sp: Spine, run: RunRow, m: Move, now: Time)
    requires SpineInv(sp) && PcInv(sp, Moving(run, m))
    ensures CanTransition(run.state, m.target)
    ensures !CasWins(sp, run) ==> PcInv(sp, Refused(run))
    ensures CasWins(sp, run) ==>
              var after := Transitioned(sp, run, m, now);
              && SpineInv(after) && Rely(sp, after)
              && PcInv(after, if m.target == ESCALATED then Returned(after.run) else Ready(after.run))
  {
    if CasWins(sp, run) {
      CasMovesOn(sp, run, m, now);
    }
  }

  lemma InsertStep(sp: Spine, run: RunRow, t: Tool, b: seq<Evidence>)
    requires SpineInv(sp) && PcInv(sp, Vacant(run, t, b))
    ensures t !in sp.tools
    ensures var after := WithTool(sp, t, Started);
            SpineInv(after) && Rely(sp, after) && PcInv(after, Owning(run, t, b))
  {
    ToolRowMovesOn(sp, t, Started, b);
    ToolRowStaysReady(sp, t, Started, b);
  }

  lemma CompleteStep(sp: Spine, run: RunRow, t: Tool, b: seq<Evidence>, o: Outcome)
    requires SpineInv(sp) && PcInv(sp, Invoked(run, t, b, o))
    ensures var after := WithTool(sp, t, RowFor(b, o));
            SpineInv(after) && Rely(sp, after) && PcInv(after, Closing(run, t, RowFor(b, o)))
  {
    var after := WithTool(sp, t, RowFor(b, o));
    ToolRowMovesOn(sp, t, RowFor(b, o), b);
    ToolRowStaysReady(sp, t, RowFor(b, o), b);
    if t == REASONING_TOOL {
      EvidenceStays(sp.tools, after.tools);
    }
  }

  lemma LogStep(sp: Spine, pc: Pc, e: Event)
    requires SpineInv(sp) && PcInv(sp, pc)
    ensures SpineInv(WithEvent(sp, e)) && Rely(sp, WithEvent(sp, e)) && PcInv(WithEvent(sp, e), pc)
  {
    PcStable(sp, WithEvent(sp, e), pc);
  }

  lemma ReloadStep(sp: Spine, pc: Pc)
    requires SpineInv(sp) && PcInv(sp, pc)
    ensures PcInv(sp, Ready(sp.run))
    ensures pc.Refused? ==> PcInv(sp, Rejecting(pc.run, sp.run.state))
    ensures pc.Rejecting? ==> PcInv(sp, Reloading(pc.run))
    ensures pc.Holding? && pc.tool !in sp.tools ==> PcInv(sp, Vacant(pc.run, pc.tool, pc.bundle))
    ensures pc.Wants? ==> PcInv(sp, Holding(pc.run, pc.tool, pc.bundle))
    ensures pc.Closing? ==> pc.tool in sp.tools && sp.tools[pc.tool] == pc.row
  {
  }

  lemma ObserveStep(sp: Spine, pc: Pc)
    requires SpineInv(sp) && PcInv(sp, pc) && (pc.Holding? || pc.Closing?) && pc.tool in sp.tools
    ensures PcInv(sp, AfterTool(pc.run, pc.tool, sp.tools[pc.tool]))
  {
    assert ToolReadyBefore(sp, pc.tool);
    AfterToolIsJustified(sp, pc.run, pc.tool);
  }

  lemma ReadyStep(sp: Spine, run: RunRow)
    requires SpineInv(sp) && PcInv(sp, Ready(run))
    ensures PcInv(sp, Dispatch(sp, run))
  {
    DispatchIsJustified(sp, run);
  }

  /** The caller's own next point, and what its step did to the rows. */
  lemma AdvanceIsSound(s: System, c: CallerId, now: Time)
    requires SpineInv(s.spine) && CanAdvance(s, c) && PcInv(s.spine, s.callers[c])
    ensures var s' := Advanced(s, c, now);
            && SpineInv(s'.spine) && Rely(s.spine, s'.spine)
            && c in s'.callers && PcInv(s'.spine, s'.callers[c])
            && s'.callers == s.callers[c := s'.callers[c]]
            && s'.calls == s.calls
  {
    hide SpineInv, PcInv, Rely, Advanced;
    RelyIsReflexive(s.spine);
    if ActsOnRows(s.callers[c]) {
      ActingIsSound(s, c, now);
    } else {
      LookingIsSound(s, c, now);
    }
  }

  predicate ActsOnRows(pc: Pc) {
    pc.Moving? || pc.Vacant? || pc.Invoked? || pc.Rejecting?
  }

  lemma ActingIsSound(s: System, c: CallerId, now: Time)
    requires SpineInv(s.spine) && CanAdvance(s, c) && PcInv(s.spine, s.callers[c]) && ActsOnRows(s.callers[c])
    ensures var s' := Advanced(s, c, now);
            && SpineInv(s'.spine) && Rely(s.spine, s'.spine)
            && c in s'.callers && PcInv(s'.spine, s'.callers[c])
            && s'.callers == s.callers[c := s'.callers[c]]
            && s'.calls == s.calls
  {
    hide SpineInv, PcInv, Rely, CanTransition;
    var pc := s.callers[c];
    RelyIsReflexive(s.spine);
    ReloadStep(s.spine, pc);
    match pc
    case Moving(run, m) => MoveStep(s.spine, run, m, now);
    case Vacant(run, t, b) => InsertStep(s.spine, run, t, b);
    case Invoked(run, t, b, o) => CompleteStep(s.spine, run, t, b, o);
    case Rejecting(run, observed) =>
      LogStep(s.spine, Reloading(run), Rejection(CONTROL_REJECTED, observed, "STATE_VERSION_CONFLICT"));
  }

  /** The other steps leave the rows as they are. */
  lemma LookingIsSound(s: System, c: CallerId, now: Time)
    requires SpineInv(s.spine) && CanAdvance(s, c) && PcInv(s.spine, s.callers[c]) && !ActsOnRows(s.callers[c])
    ensures var s' := Advanced(s, c, now);
            && s'.spine == s.spine && s'.calls == s.calls
            && c in s'.callers && PcInv(s'.spine, s'.callers[c])
            && s'.callers == s.callers[c := s'.callers[c]]
  {
    hide SpineInv, PcInv, Dispatch, AfterTool;
    var pc := s.callers[c];
    ReloadStep(s.spine, pc);
    match pc
    case Ready(run) => ReadyStep(s.spine, run);
    case Holding(run, t, b) =>
      if t in s.spine.tools {
        ObserveStep(s.spine, pc);
      }
    case Closing(run, t, row) => ObserveStep(s.spine, pc);
    case _ =>
  }

  lemma RelyIsReflexive(sp: Spine)
    ensures Rely(sp, sp)
  {
  }

  /** A step changes the row of a tool only under the tool's lock, and the locks only at both ends of a claim. */
  lemma AdvanceTouches(s: System, c: CallerId, now: Time)
    requires SpineInv(s.spine) && LockInv(s) && CanAdvance(s, c) && PcInv(s.spine, s.callers[c])
    ensures var s', pc := Advanced(s, c, now), s.callers[c];
            && c in s'.callers
            && (forall t | Some(t) != HeldTool(pc) ::
                  (t in s.spine.tools <==> t in s'.spine.tools) && (t in s.spine.tools ==> s'.spine.tools[t] == s.spine.tools[t]))
            && (if pc.Wants? then
                  pc.tool !in s.locks && s'.locks == s.locks[pc.tool := c] && HeldTool(s'.callers[c]) == Some(pc.tool)
                else if HeldTool(s'.callers[c]) == HeldTool(pc) then s'.locks == s.locks
                else HeldTool(pc).Some? && HeldTool(s'.callers[c]) == None && s'.locks == s.locks - {HeldTool(pc).value})
  {
    hide SpineInv, Rely, PcInv, CanTransition, Dispatch, AfterTool;
    var pc := s.callers[c];
    match pc
    case Ready(run) => DispatchHoldsNothing(s.spine, run);
    case Holding(run, t, b) =>
      if t in s.spine.tools {
        AfterToolHoldsNothing(run, t, s.spine.tools[t]);
      }
    case Closing(run, t, row) => AfterToolHoldsNothing(run, t, row);
    case Moving(run, m) => MoveStep(s.spine, run, m, now);
    case Vacant(run, t, b) => InsertStep(s.spine, run, t, b);
    case _ =>
  }

  lemma DispatchHoldsNothing(sp: Spine, run: RunRow)
    ensures HeldTool(Dispatch(sp, run)) == None
  {
  }

  lemma AfterToolHoldsNothing(run: RunRow, t: Tool, row: ToolRow)
    ensures HeldTool(AfterTool(run, t, row)) == None
  {
  }

  lemma AdvanceKeepsInv(s: System, c: CallerId, now: Time)
    requires Inv(s) && CanAdvance(s, c)
    ensures Inv(Advanced(s, c, now))
    ensures Rely(s.spine, Advanced(s, c, now).spine)
  {
    hide SpineInv, PcInv, Rely, CallInv, Advanced;
    var held := HeldTool(s.callers[c]);
    assert held.Some? ==> held.value in s.locks && s.locks[held.value] == c;
    AdvanceIsSound(s, c, now);
    AdvanceTouches(s, c, now);
    OthersStay(s, Advanced(s, c, now).spine, c);
    AdvanceKeepsLocks(s, Advanced(s, c, now), c);
    AdvanceKeepsCalls(s, c, now);
  }

  lemma AdvanceKeepsLocks(s: System, s': System, c: CallerId)
    requires LockInv(s) && c in s.callers && c in s'.callers
    requires s'.callers == s.callers[c := s'.callers[c]]
    requires var pc := s.callers[c];
             if pc.Wants? then
               pc.tool !in s.locks && s'.locks == s.locks[pc.tool := c] && HeldTool(s'.callers[c]) == Some(pc.tool)
             else if HeldTool(s'.callers[c]) == HeldTool(pc) then s'.locks == s.locks
             else HeldTool(pc).Some? && HeldTool(s'.callers[c]) == None && s'.locks == s.locks - {HeldTool(pc).value}
    ensures LockInv(s')
  {
  }

  lemma CallsFollow(s: System, s': System)
    requires CallInv(s) && Rely(s.spine, s'.spine) && s'.calls == s.calls
    requires forall c | c in s'.callers && s'.callers[c].Owning? ::
               (c in s.callers && s.callers[c] == s'.callers[c]) || s'.callers[c].tool !in s.spine.tools
    ensures CallInv(s')
  {
    if AllGathered(s.spine.tools) {
      EvidenceStays(s.spine.tools, s'.spine.tools);
    }
  }

  lemma AdvanceKeepsCalls(s: System, c: CallerId, now: Time)
    requires Inv(s) && CanAdvance(s, c)
    ensures CallInv(Advanced(s, c, now))
  {
    hide SpineInv, PcInv, Rely, CallInv, Dispatch, AfterTool, CanTransition;
    AdvanceIsSound(s, c, now);
    OnlyInsertOwns(s, c, now);
    CallsFollow(s, Advanced(s, c, now));
  }

  lemma OnlyInsertOwns(s: System, c: CallerId, now: Time)
    requires CanAdvance(s, c) && PcInv(s.spine, s.callers[c])
    ensures var s' := Advanced(s, c, now);
            c in s'.callers && s'.callers[c].Owning? ==> s'.callers[c].tool !in s.spine.tools
  {
    hide ToolReady, ToolReadyBefore, MoveJustified, RowShape, RunForward, CanTransition;
  }

  lemma InvokeKeepsInv(s: System, c: CallerId, o: Outcome)
    requires Inv(s) && CanInvoke(s, c, o)
    ensures Inv(Apply(s, Invoke(c, o)))
  {
    hide SpineInv, PcInv, LockInv, CallInv;
    var pc := s.callers[c];
    InvokedIsJustified(s.spine, pc, o);
    InvokeKeepsLocks(s, c, o);
    InvokeKeepsCalls(s, c, o);
  }

  lemma InvokedIsJustified(sp: Spine, pc: Pc, o: Outcome)
    requires PcInv(sp, pc) && pc.Owning? && WellTyped(pc.tool, o)
    ensures PcInv(sp, Invoked(pc.run, pc.tool, pc.bundle, o))
    ensures pc.tool in sp.tools
  {
  }

  lemma InvokeKeepsLocks(s: System, c: CallerId, o: Outcome)
    requires LockInv(s) && CanInvoke(s, c, o)
    ensures LockInv(Apply(s, Invoke(c, o)))
  {
    AdvanceKeepsLocks(s, Apply(s, Invoke(c, o)), c);
  }

  lemma InvokeKeepsCalls(s: System, c: CallerId, o: Outcome)
    requires SpineInv(s.spine) && LockInv(s) && CallInv(s) && CanInvoke(s, c, o) && PcInv(s.spine, s.callers[c])
    ensures CallInv(Apply(s, Invoke(c, o)))
  {
    hide SpineInv, PcInv, LockInv, ListEvidence, ValidateBundle, AllGathered, CallInv;
    var pc := s.callers[c];
    InvokedIsJustified(s.spine, pc, o);
    if pc.tool == REASONING_TOOL {
      OwnerIsGated(s.spine, pc);
    }
    OneOwner(s, c);
    OneMoreCall(s, c, Invoked(pc.run, pc.tool, pc.bundle, o));
  }

  lemma OneMoreCall(s: System, c: CallerId, next: Pc)
    requires CallInv(s) && c in s.callers && s.callers[c].Owning? && !next.Owning?
    requires s.callers[c].tool in s.spine.tools
    requires forall d | d in s.callers && d != c && s.callers[d].Owning? :: s.callers[d].tool != s.callers[c].tool
    requires s.callers[c].tool == REASONING_TOOL ==>
               && AllGathered(s.spine.tools) && s.callers[c].bundle == ListEvidence(s.spine.tools)
               && ValidateBundle(s.callers[c].bundle, s.spine.run.asOf) == None
    ensures var pc := s.callers[c];
            CallInv(At(s, c, next).(calls := s.calls + [Call(pc.tool, pc.bundle)]))
  {
    hide ListEvidence, ValidateBundle, AllGathered;
  }

  /** An owner of the reasoning tool holds exactly the evidence that `validate_bundle` accepted. */
  lemma OwnerIsGated(sp: Spine, pc: Pc)
    requires SpineInv(sp) && PcInv(sp, pc) && pc.Owning? && pc.tool == REASONING_TOOL
    ensures AllGathered(sp.tools) && pc.bundle == ListEvidence(sp.tools)
    ensures ValidateBundle(pc.bundle, sp.run.asOf) == None
  {
  }

  lemma OneOwner(s: System, c: CallerId)
    requires LockInv(s) && c in s.callers && s.callers[c].Owning?
    ensures forall d | d in s.callers && d != c && s.callers[d].Owning? :: s.callers[d].tool != s.callers[c].tool
  {
  }

  lemma CrashKeepsInv(s: System, c: CallerId)
    requires Inv(s)
    ensures Inv(Dropped(s, c))
  {
    hide SpineInv, PcInv;
  }

  lemma SpineStepKeepsInv(s: System, sp: Spine)
    requires Inv(s) && SpineInv(sp) && Rely(s.spine, sp) && sp.tools == s.spine.tools
    ensures Inv(s.(spine := sp))
  {
    hide SpineInv, PcInv;
    forall c | c in s.callers
      ensures PcInv(sp, s.callers[c])
    {
      PcStable(s.spine, sp, s.callers[c]);
    }
  }

  lemma StepKeepsInv(s: System, step: Step)
    requires Inv(s)
    ensures Inv(Apply(s, step))
    ensures Rely(s.spine, Apply(s, step).spine)
  {
    hide SpineInv, PcInv, Rely, CallInv, LockInv;
    RelyIsReflexive(s.spine);
    match step
    case Join(c) => JoinKeepsInv(s, c);
    case Advance(c, now) =>
      if CanAdvance(s, c) {
        AdvanceKeepsInv(s, c, now);
      }
    case Invoke(c, o) =>
      if CanInvoke(s, c, o) {
        InvokeKeepsInv(s, c, o);
      }
    case Crash(c) => CrashKeepsInv(s, c);
    case Decide(r, stale) =>
      ReviewMovesOn(s.spine, r, stale);
      SpineStepKeepsInv(s, ServiceReviewed(s.spine, r, stale));
    case LogRejection(kind, stale, code) =>
      var after := WithEvent(s.spine, Rejection(kind, stale, code));
      EventMovesOn(s.spine, Rejection(kind, stale, code));
      SpineStepKeepsInv(s, after);
  }

  lemma EventMovesOn(sp: Spine, e: Event)
    requires SpineInv(sp)
    ensures SpineInv(WithEvent(sp, e)) && Rely(sp, WithEvent(sp, e))
  {
  }

  lemma JoinKeepsInv(s: System, c: CallerId)
    requires Inv(s)
    ensures Inv(Apply(s, Join(c)))
  {
    hide SpineInv, PcInv, LockInv, CallInv;
    if c !in s.callers {
      FreshRecord(s.spine);
      JoinKeepsLocksAndCalls(s, c);
      assert Apply(s, Join(c)).callers == s.callers[c := Ready(s.spine.run)];
    }
  }

  lemma JoinKeepsLocksAndCalls(s: System, c: CallerId)
    requires LockInv(s) && CallInv(s) && c !in s.callers
    ensures LockInv(Apply(s, Join(c))) && CallInv(Apply(s, Join(c)))
  {
    hide AllGathered, ListEvidence, ValidateBundle;
  }

  lemma FreshRecord(sp: Spine)
    requires SpineInv(sp)
    ensures PcInv(sp, Ready(sp.run))
  {
    hide StageInv, TypedRows;
  }

  lemma {:induction false} RunKeepsInv(g: Config, run: seq<Step>)
    ensures Inv(After(g, run))
  {
    if run != [] {
      RunKeepsInv(g, run[..|run| - 1]);
      StepKeepsInv(After(g, run[..|run| - 1]), run[|run| - 1]);
    }
  }
}
