/** A run at rest: nobody can touch its tools any more, so what a shadow analysis reads of it is fixed for good. */
module ControlRest {
  import opened Wrappers
  import opened Evidence
  import opened ControlModel
  import opened ControlSystem
  import opened ControlInvariant
  import opened ControlTheorems

  // ---------------------------------------------------------- dead tools

  /** The tools that must be complete before `t` is asked for. */
  predicate Reachable(tools: map<Tool, ToolRow>, t: Tool) {
    match t
    case T1_INVENTORY => true
    case T2_SALES_DEMAND => Has(tools, T1_INVENTORY)
    case T3_SUPPLIER => Has(tools, T1_INVENTORY) && Has(tools, T2_SALES_DEMAND)
    case REASONING_TOOL => AllGathered(tools)
  }

  predicate Owns(pc: Pc, t: Tool) {
    (pc.Owning? || pc.Invoked?) && pc.tool == t
  }

  /** The tool has a row that will never be a result: it failed, or its owner is gone. */
  ghost predicate Dead(s: System, t: Tool) {
    && t in s.spine.tools && !s.spine.tools[t].Completed? && Reachable(s.spine.tools, t)
    && (s.spine.tools[t] == Started ==> forall c | c in s.callers :: !Owns(s.callers[c], t))
  }

  /** What stops a run at each stage from which it may be escalated. */
  ghost predicate Stopped(s: System, stage: RunState) {
    match stage
    case GATHERING_EVIDENCE => Dead(s, T1_INVENTORY) || Dead(s, T2_SALES_DEMAND) || Dead(s, T3_SUPPLIER)
    case QUALITY_CHECKS => AllGathered(s.spine.tools)
    case REASONING => Dead(s, REASONING_TOOL)
    case _ => false
  }

  function EscalatedFrom(version: nat): RunState {
    if version == 3 then GATHERING_EVIDENCE else if version == 4 then QUALITY_CHECKS else REASONING
  }

  ghost predicate StopInv(s: System) {
    && (forall c | c in s.callers && s.callers[c].Moving? && s.callers[c].move.target == ESCALATED ::
          Stopped(s, s.callers[c].run.state))
    && (s.spine.run.state == ESCALATED ==> Stopped(s, EscalatedFrom(s.spine.run.version)))
  }

  // ----------------------------------------------------------- preservation

  lemma HasStays(a: Spine, b: Spine, t: Tool)
    requires Rely(a, b)
    ensures Has(a.tools, t) ==> Has(b.tools, t)
  {
  }

  lemma ReachableStays(a: Spine, b: Spine, t: Tool)
    requires Rely(a, b) && Reachable(a.tools, t)
    ensures Reachable(b.tools, t)
  {
    hide Rely, Has;
    HasStays(a, b, T1_INVENTORY);
    HasStays(a, b, T2_SALES_DEMAND);
    HasStays(a, b, T3_SUPPLIER);
  }

  /** A dead tool stays dead if its row is left alone and nobody comes to own it. */
  lemma DeadStays(s: System, s': System, t: Tool)
    requires Dead(s, t) && Rely(s.spine, s'.spine)
    requires t in s'.spine.tools && s'.spine.tools[t] == s.spine.tools[t]
    requires forall c | c in s'.callers && Owns(s'.callers[c], t) :: c in s.callers && Owns(s.callers[c], t)
    ensures Dead(s', t)
  {
    ReachableStays(s.spine, s'.spine, t);
  }

  /** No step writes the row of a dead tool or makes anybody its owner. */
  ghost predicate LeavesDead(s: System, s': System) {
    forall t | Dead(s, t) :: Dead(s', t)
  }

  lemma AdvanceOwners(s: System, c: CallerId, now: Time, t: Tool)
    requires CanAdvance(s, c) && PcInv(s.spine, s.callers[c]) && t in s.spine.tools && !Owns(s.callers[c], t)
    ensures var s' := Advanced(s, c, now);
            && (c in s'.callers ==> !Owns(s'.callers[c], t))
            && t in s'.spine.tools && s'.spine.tools[t] == s.spine.tools[t]
  {
    hide ToolReady, ToolReadyBefore, MoveJustified, RowShape, RunForward, CanTransition, QualityMove, DraftMove;
  }

  lemma AdvanceLeavesDead(s: System, c: CallerId, now: Time)
    requires Inv(s) && CanAdvance(s, c)
    ensures LeavesDead(s, Advanced(s, c, now))
  {
    hide Inv, PcInv, SpineInv, Advanced, Dead;
    CallerHolds(s, c);
    AdvanceKeepsInv(s, c, now);
    AdvanceIsSound(s, c, now);
    forall t | Dead(s, t)
      ensures Dead(Advanced(s, c, now), t)
    {
      AdvanceKeepsDead(s, c, now, t);
    }
  }

  lemma CallerHolds(s: System, c: CallerId)
    requires Inv(s) && c in s.callers
    ensures PcInv(s.spine, s.callers[c]) && SpineInv(s.spine) && LockInv(s)
  {
  }

  lemma AdvanceKeepsDead(s: System, c: CallerId, now: Time, t: Tool)
    requires SpineInv(s.spine) && CanAdvance(s, c) && PcInv(s.spine, s.callers[c]) && Dead(s, t)
    ensures Dead(Advanced(s, c, now), t)
  {
    hide SpineInv, Advanced;
    OwnersHaveStarted(s.spine, s.callers[c]);
    hide PcInv;
    AdvanceOwners(s, c, now, t);
    AdvanceIsSound(s, c, now);
    DeadStays(s, Advanced(s, c, now), t);
  }

  lemma OwnersHaveStarted(sp: Spine, pc: Pc)
    requires PcInv(sp, pc)
    ensures pc.Owning? || pc.Invoked? ==> pc.tool in sp.tools && sp.tools[pc.tool] == Started
    ensures pc.Vacant? ==> pc.tool !in sp.tools
  {
  }

  lemma StoppedStays(s: System, s': System, stage: RunState)
    requires Stopped(s, stage) && LeavesDead(s, s') && Rely(s.spine, s'.spine)
    ensures Stopped(s', stage)
  {
    hide Rely, Dead;
    if stage == QUALITY_CHECKS {
      ReachableStays(s.spine, s'.spine, REASONING_TOOL);
    }
  }

  /** Whoever reads an unfinished row under its lock knows that nobody owns the tool. */
  lemma ObservedIsDead(s: System, c: CallerId)
    requires LockInv(s) && c in s.callers && PcInv(s.spine, s.callers[c])
    requires (s.callers[c].Holding? || s.callers[c].Closing?) && s.callers[c].tool in s.spine.tools
    requires !s.spine.tools[s.callers[c].tool].Completed?
    ensures Dead(s, s.callers[c].tool)
  {
    hide RowShape, RunForward;
    OwnersHoldTheLock(s, s.callers[c].tool);
  }

  lemma OwnersHoldTheLock(s: System, t: Tool)
    requires LockInv(s)
    ensures forall d | d in s.callers && Owns(s.callers[d], t) :: t in s.locks && s.locks[t] == d
  {
    assert forall pc :: Owns(pc, t) ==> HeldTool(pc) == Some(t);
  }

  /** A caller takes up a move only after dispatching or after reading a tool row. */
  lemma MovesComeFrom(s: System, c: CallerId, now: Time)
    requires CanAdvance(s, c) && PcInv(s.spine, s.callers[c])
    ensures var pc, s' := s.callers[c], Advanced(s, c, now);
            c in s'.callers && s'.callers[c].Moving? ==>
              || (pc.Ready? && s'.callers[c] == Dispatch(s.spine, pc.run))
              || ((pc.Holding? || pc.Closing?) && pc.tool in s.spine.tools
                  && s'.callers[c] == AfterTool(pc.run, pc.tool, s.spine.tools[pc.tool]))
  {
    hide ToolReady, ToolReadyBefore, MoveJustified, RowShape, RunForward, CanTransition, AfterTool, Dispatch;
  }

  /** A caller that is about to escalate has seen what stops the run. */
  lemma NewMoveIsStopped(s: System, c: CallerId, now: Time)
    requires SpineInv(s.spine) && LockInv(s) && CanAdvance(s, c) && PcInv(s.spine, s.callers[c])
    ensures var s' := Advanced(s, c, now);
            c in s'.callers && s'.callers[c].Moving? && s'.callers[c].move.target == ESCALATED ==>
              Stopped(s, s'.callers[c].run.state)
  {
    MovesComeFrom(s, c, now);
    var pc := s.callers[c];
    RecordsStay(s.spine, pc);
    hide *;
    if pc.Ready? {
      ReadyIs(pc);
      DispatchStops(s, pc.run);
    } else if (pc.Holding? || pc.Closing?) && pc.tool in s.spine.tools {
      AfterToolStops(s, c);
    }
  }

  lemma ReadyIs(pc: Pc)
    requires pc.Ready?
    ensures pc == Ready(pc.run)
  {
  }

  lemma RecordsStay(sp: Spine, pc: Pc)
    ensures pc.Ready? && Dispatch(sp, pc.run).Moving? ==> Dispatch(sp, pc.run).run == pc.run
    ensures pc.Holding? || pc.Closing? ==>
              forall row :: AfterTool(pc.run, pc.tool, row).Moving? ==> AfterTool(pc.run, pc.tool, row).run == pc.run
  {
    hide QualityMove, DraftMove;
  }

  lemma DispatchStops(s: System, run: RunRow)
    requires SpineInv(s.spine) && PcInv(s.spine, Ready(run))
    ensures var pc := Dispatch(s.spine, run);
            pc.Moving? && pc.move.target == ESCALATED ==> Stopped(s, run.state)
  {
    hide ValidateBundle, ListEvidence, Dead;
  }

  lemma AfterToolStops(s: System, c: CallerId)
    requires LockInv(s) && c in s.callers && PcInv(s.spine, s.callers[c])
    requires (s.callers[c].Holding? || s.callers[c].Closing?) && s.callers[c].tool in s.spine.tools
    ensures s.callers[c].Closing? ==> s.callers[c].row == s.spine.tools[s.callers[c].tool]
    ensures var pc := AfterTool(s.callers[c].run, s.callers[c].tool, s.spine.tools[s.callers[c].tool]);
            pc.Moving? && pc.move.target == ESCALATED ==> Stopped(s, s.callers[c].run.state)
  {
    if !s.spine.tools[s.callers[c].tool].Completed? {
      ObservedIsDead(s, c);
    }
    hide Dead, RowShape, RunForward, ToolReady, LockInv;
  }

  lemma AdvanceKeepsStop(s: System, c: CallerId, now: Time)
    requires Inv(s) && StopInv(s) && CanAdvance(s, c)
    ensures StopInv(Advanced(s, c, now))
  {
    hide Inv, SpineInv, LockInv, CallInv, PcInv, Rely, StopInv, LeavesDead, Advanced;
    var s' := Advanced(s, c, now);
    CallerHolds(s, c);
    AdvanceLeavesDead(s, c, now);
    AdvanceKeepsInv(s, c, now);
    AdvanceIsSound(s, c, now);
    NewMoveIsStopped(s, c, now);
    EscalationIsStopped(s, c, now);
    StopFollows(s, s', c);
  }

  lemma StopFollows(s: System, s': System, c: CallerId)
    requires StopInv(s) && LeavesDead(s, s') && Rely(s.spine, s'.spine)
    requires c in s'.callers && s'.callers == s.callers[c := s'.callers[c]]
    requires s'.callers[c].Moving? && s'.callers[c].move.target == ESCALATED ==> Stopped(s, s'.callers[c].run.state)
    requires s'.spine.run.state == ESCALATED ==> Stopped(s, EscalatedFrom(s'.spine.run.version))
    ensures StopInv(s')
  {
    hide Rely, Stopped, LeavesDead, EscalatedFrom;
    forall d | d in s'.callers && s'.callers[d].Moving? && s'.callers[d].move.target == ESCALATED
      ensures Stopped(s', s'.callers[d].run.state)
    {
      StoppedStays(s, s', s'.callers[d].run.state);
    }
    if s'.spine.run.state == ESCALATED {
      StoppedStays(s, s', EscalatedFrom(s'.spine.run.version));
    }
  }

  /** A run is escalated only by a caller whose stage is stopped, and stays where it is afterwards. */
  lemma EscalationIsStopped(s: System, c: CallerId, now: Time)
    requires SpineInv(s.spine) && StopInv(s) && CanAdvance(s, c) && PcInv(s.spine, s.callers[c])
    ensures var s' := Advanced(s, c, now);
            s'.spine.run.state == ESCALATED ==> Stopped(s, EscalatedFrom(s'.spine.run.version))
  {
    hide Stopped, SpineInv, PcInv, Advanced, CasWins, EscalatedFrom;
    var pc := s.callers[c];
    RunMovesOnlyByMoving(s, c, now);
    if pc.Moving? && CasWins(s.spine, pc.run) {
      WinnersAreCurrent(s.spine, pc.run, pc.move);
      EscalatesFromHere(s.spine, pc.run, pc.move);
    }
  }

  lemma EscalatesFromHere(sp: Spine, run: RunRow, m: Move)
    requires SpineInv(sp) && PcInv(sp, Moving(run, m)) && run == sp.run
    ensures Working(run.state) && (m.target == ESCALATED ==> EscalatedFrom(run.version + 1) == run.state)
  {
    hide StageInv, TypedRows, RunForward;
  }

  lemma RunMovesOnlyByMoving(s: System, c: CallerId, now: Time)
    requires CanAdvance(s, c)
    ensures var pc, run := s.callers[c], Advanced(s, c, now).spine.run;
            || run == s.spine.run
            || (pc.Moving? && CasWins(s.spine, pc.run) && run.state == pc.move.target && run.version == s.spine.run.version + 1)
  {
    hide AfterTool, Dispatch, RowFor, CanTransition, CasWins;
  }

  lemma InvokeKeepsStop(s: System, c: CallerId, o: Outcome)
    requires StopInv(s) && CanInvoke(s, c, o)
    ensures StopInv(Apply(s, Invoke(c, o)))
  {
    var s' := Apply(s, Invoke(c, o));
    forall t | Dead(s, t)
      ensures Dead(s', t)
    {
      assert Owns(s'.callers[c], t) ==> Owns(s.callers[c], t);
    }
    hide Dead;
  }

  lemma CrashKeepsStop(s: System, c: CallerId)
    requires StopInv(s)
    ensures StopInv(Dropped(s, c))
  {
    forall t | Dead(s, t)
      ensures Dead(Dropped(s, c), t)
    {
    }
    hide Dead;
  }

  lemma JoinKeepsStop(s: System, c: CallerId)
    requires StopInv(s)
    ensures StopInv(Apply(s, Join(c)))
  {
    forall t | Dead(s, t)
      ensures Dead(Apply(s, Join(c)), t)
    {
    }
    hide Dead;
  }

  /** Reviews and rejections leave the tools alone and escalate nothing. */
  lemma SpineStepKeepsStop(s: System, sp: Spine)
    requires StopInv(s) && sp.tools == s.spine.tools
    requires sp.run.state == ESCALATED ==> sp.run == s.spine.run
    ensures StopInv(s.(spine := sp))
  {
    forall t | Dead(s, t)
      ensures Dead(s.(spine := sp), t)
    {
    }
    hide Dead;
  }

  lemma ReviewsEscalateNothing(sp: Spine, r: Review, stale: RunState)
    ensures var after := ServiceReviewed(sp, r, stale);
            after.tools == sp.tools && (after.run == sp.run || after.run.state == CLOSED)
  {
    hide ValidCitations, ListEvidence, IdsOf;
  }

  lemma StepKeepsStop(s: System, step: Step)
    requires Inv(s) && StopInv(s)
    ensures StopInv(Apply(s, step))
  {
    hide Inv, StopInv, ServiceReviewed, Advanced;
    match step
    case Join(c) => JoinKeepsStop(s, c);
    case Advance(c, now) =>
      if CanAdvance(s, c) {
        AdvanceKeepsStop(s, c, now);
      }
    case Invoke(c, o) =>
      if CanInvoke(s, c, o) {
        InvokeKeepsStop(s, c, o);
      }
    case Crash(c) => CrashKeepsStop(s, c);
    case Decide(r, stale) =>
      ReviewsEscalateNothing(s.spine, r, stale);
      SpineStepKeepsStop(s, ServiceReviewed(s.spine, r, stale));
    case LogRejection(kind, stale, code) => SpineStepKeepsStop(s, WithEvent(s.spine, Rejection(kind, stale, code)));
  }

  lemma {:induction false} RunKeepsStop(g: Config, run: seq<Step>)
    ensures StopInv(After(g, run))
  {
    hide Inv, StopInv, Apply;
    if run == [] {
      NothingIsStopped(g);
    } else {
      RunKeepsStop(g, Before(run));
      RunKeepsInv(g, Before(run));
      StepKeepsStop(After(g, Before(run)), Last(run));
    }
  }

  lemma NothingIsStopped(g: Config)
    ensures StopInv(Start(g))
  {
  }

  // ------------------------------------------------------------------ rest

  /** Where every evidence tool is done or dead, and so is reasoning, nobody owns or inserts a tool row. */
  ghost predicate Quiet(s: System) {
    forall c | c in s.callers :: !s.callers[c].Vacant? && !s.callers[c].Owning? && !s.callers[c].Invoked?
  }

  /** A caller that could write a tool row would have to stand at a tool that is not yet settled. */
  lemma WritersAreBusy(s: System, c: CallerId, t: Tool)
    requires c in s.callers && PcInv(s.spine, s.callers[c])
    requires s.callers[c].Vacant? || s.callers[c].Owning? || s.callers[c].Invoked?
    ensures Reachable(s.spine.tools, s.callers[c].tool) && !Has(s.spine.tools, s.callers[c].tool)
    ensures Rank(StageOf(s.callers[c].tool)) <= Reached(s.spine.run)
    ensures Dead(s, t) ==> s.callers[c].tool != t
  {
    hide RowShape;
  }

  lemma StoppedBlocks(s: System, stage: RunState, t: Tool)
    requires Stopped(s, stage) && Reachable(s.spine.tools, t) && !Has(s.spine.tools, t)
    ensures stage == QUALITY_CHECKS ==> t == REASONING_TOOL
    ensures stage != QUALITY_CHECKS ==> Dead(s, t)
  {
  }

  lemma RestIsQuiet(s: System)
    requires Inv(s) && StopInv(s) && !Working(s.spine.run.state)
    ensures Quiet(s)
  {
    hide SpineInv, PcInv, LockInv, CallInv, Dead, Stopped;
    forall c | c in s.callers
      ensures !s.callers[c].Vacant? && !s.callers[c].Owning? && !s.callers[c].Invoked?
    {
      if s.callers[c].Vacant? || s.callers[c].Owning? || s.callers[c].Invoked? {
        NoWriterAtRest(s, c);
      }
    }
  }

  lemma NoWriterAtRest(s: System, c: CallerId)
    requires SpineInv(s.spine) && StopInv(s) && c in s.callers && PcInv(s.spine, s.callers[c])
    requires s.callers[c].Vacant? || s.callers[c].Owning? || s.callers[c].Invoked?
    ensures Working(s.spine.run.state)
  {
    var t := s.callers[c].tool;
    WritersAreBusy(s, c, t);
    if s.spine.run.state == ESCALATED {
      StoppedBlocks(s, EscalatedFrom(s.spine.run.version), t);
    } else if !Working(s.spine.run.state) {
      AllDone(s.spine, t);
    }
    hide PcInv, Stopped, Dead, Reachable, ListEvidence, ValidateBundle;
  }

  lemma AllDone(sp: Spine, t: Tool)
    requires SpineInv(sp) && !Working(sp.run.state) && sp.run.state != ESCALATED
    ensures Has(sp.tools, t)
  {
  }

  /** What a shadow analysis reads of a run: its row, its tool rows and the codes it was escalated with. */
  datatype View = View(run: RunRow, tools: map<Tool, ToolRow>, escalations: seq<string>)

  function ViewOf(sp: Spine): View {
    View(sp.run, sp.tools, EscalationCodes(sp.events))
  }

  /** A shadow run that is at rest is read the same ever after. */
  ghost predicate KeepsRest(a: Spine, b: Spine) {
    a.run.shadow && !Working(a.run.state) ==> ViewOf(b) == ViewOf(a)
  }

  lemma RejectionKeepsView(sp: Spine, kind: EventType, stale: RunState, code: string)
    requires kind in {CONTROL_REJECTED, REVIEW_REJECTED, INTAKE_REJECTED}
    ensures ViewOf(WithEvent(sp, Rejection(kind, stale, code))) == ViewOf(sp)
  {
    var e := Rejection(kind, stale, code);
    assert (sp.events + [e])[..|sp.events|] == sp.events;
    assert EscalationCodes(sp.events) + [] == EscalationCodes(sp.events);
  }

  lemma AdvanceAtRest(s: System, c: CallerId, now: Time)
    requires SpineInv(s.spine) && Quiet(s) && CanAdvance(s, c) && PcInv(s.spine, s.callers[c])
    requires !Working(s.spine.run.state)
    ensures ViewOf(Advanced(s, c, now).spine) == ViewOf(s.spine)
  {
    hide ToolReady, ToolReadyBefore, AfterTool, Dispatch, RowShape, RunForward, ViewOf, Rejection, WithEvent;
    match s.callers[c]
    case Rejecting(run, observed) => RejectionKeepsView(s.spine, CONTROL_REJECTED, observed, "STATE_VERSION_CONFLICT");
    case _ =>
  }

  lemma ReviewAtRest(sp: Spine, r: Review, stale: RunState)
    requires sp.run.shadow
    ensures ViewOf(ServiceReviewed(sp, r, stale)) == ViewOf(sp)
  {
    hide ViewOf, Rejection, WithEvent, ValidCitations, ListEvidence, IdsOf;
    RejectionKeepsView(sp, CONTROL_REJECTED, stale, "REVIEWER_ROLE_REQUIRED");
    RejectionKeepsView(sp, CONTROL_REJECTED, stale, "INVALID_EDITED_PAYLOAD");
    RejectionKeepsView(sp, REVIEW_REJECTED, sp.run.state, "SHADOW_REVIEW_FORBIDDEN");
  }

  lemma StepKeepsRest(s: System, step: Step)
    requires Inv(s) && StopInv(s)
    ensures KeepsRest(s.spine, Apply(s, step).spine)
  {
    if s.spine.run.shadow && !Working(s.spine.run.state) {
      RestIsQuiet(s);
      hide ViewOf, StopInv, Advanced, ServiceReviewed, SpineInv, PcInv, LockInv, CallInv;
      match step
      case Advance(c, now) =>
        if CanAdvance(s, c) {
          AdvanceAtRest(s, c, now);
        }
      case Decide(r, stale) => ReviewAtRest(s.spine, r, stale);
      case LogRejection(kind, stale, code) =>
        if kind in {CONTROL_REJECTED, REVIEW_REJECTED, INTAKE_REJECTED} {
          RejectionKeepsView(s.spine, kind, stale, code);
        }
      case _ =>
    }
  }

  lemma RestIsTransitive(a: Spine, b: Spine, c: Spine)
    requires KeepsRest(a, b) && KeepsRest(b, c)
    ensures KeepsRest(a, c)
  {
  }

  /** A shadow run at rest is frozen: in every continuation an analysis reads the same row, tools and codes. */
  lemma {:induction false} ShadowRunsRestForever(g: Config, run: seq<Step>, more: seq<Step>)
    requires g.shadow && !Working(After(g, run).spine.run.state)
    ensures ViewOf(After(g, run + more).spine) == ViewOf(After(g, run).spine)
    decreases |more|
  {
    hide Inv, StopInv, After, ViewOf, Apply;
    ConfigStays(g, run);
    if more == [] {
      assert run + more == run;
    } else {
      LastStep(g, run, more);
      ShadowRunsRestForever(g, run, Before(more));
      RunKeepsInv(g, run + Before(more));
      RunKeepsStop(g, run + Before(more));
      StepKeepsRest(After(g, run + Before(more)), Last(more));
      SameViewSameRun(After(g, run).spine, After(g, run + Before(more)).spine);
    }
  }

  lemma SameViewSameRun(a: Spine, b: Spine)
    requires ViewOf(a) == ViewOf(b)
    ensures a.run == b.run
  {
  }
}
