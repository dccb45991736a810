/**
 Why runs move and why they are escalated, over all runs: every pending move is the one its stage calls for, and an
 escalated run has exactly one code, that of the first check that fails on the rows as they are and will be.
 */
module ControlReasons {
  import opened Wrappers
  import opened Evidence
  import opened ControlModel
  import opened ControlSystem
  import opened ControlInvariant
  import opened ControlTheorems
  import opened ControlRules
  import opened ControlRest

  /** The record of a run at an earlier stage, as far as the rules read it. */
  function AtStage(run: RunRow, stage: RunState): RunRow {
    run.(state := stage)
  }

  /** An escalated run shows why on its tool rows, under the one code it logged; any other has logged none. */
  ghost predicate HasReason(sp: Spine) {
    if sp.run.state == ESCALATED then
      && |EscalationCodes(sp.events)| == 1
      && CalledFor(sp.tools, AtStage(sp.run, EscalatedFrom(sp.run.version)),
                   Move(ESCALATED, RUN_ESCALATED, EscalationCodes(sp.events)[0], None))
    else EscalationCodes(sp.events) == []
  }

  ghost predicate ReasonInv(s: System) {
    && (forall c | c in s.callers && s.callers[c].Moving? :: CalledFor(s.spine.tools, s.callers[c].run, s.callers[c].move))
    && HasReason(s.spine)
  }

  // ------------------------------------------------------------- stability

  ghost predicate KeepsDeadRows(s: System, s': System) {
    forall t | Dead(s, t) :: t in s'.spine.tools && s'.spine.tools[t] == s.spine.tools[t]
  }

  /** What the rows must show for a move at this stage to be pending at all. */
  ghost predicate Standing(s: System, stage: RunState, target: RunState) {
    && (stage in {QUALITY_CHECKS, DRAFTING_RECOMMENDATION} ==> AllGathered(s.spine.tools))
    && (stage == DRAFTING_RECOMMENDATION ==> Has(s.spine.tools, REASONING_TOOL))
    && (stage in {GATHERING_EVIDENCE, REASONING} && target == ESCALATED ==> Stopped(s, stage))
  }

  /** Only the first unfinished tool can be dead: those before it are done, those after it not reachable. */
  lemma DeadIsFirstUnfinished(s: System, code: string)
    requires Stopped(s, GATHERING_EVIDENCE) && GatheringStops(s.spine.tools, code)
    ensures exists t :: t != REASONING_TOOL && Dead(s, t) && UnfinishedIn(s.spine.tools, t, code)
  {
    if UnfinishedIn(s.spine.tools, T1_INVENTORY, code) {
      assert Dead(s, T1_INVENTORY);
    } else if UnfinishedIn(s.spine.tools, T2_SALES_DEMAND, code) {
      assert Dead(s, T2_SALES_DEMAND);
    } else {
      assert Dead(s, T3_SUPPLIER);
    }
  }

  lemma GatheringStaysStopped(s: System, s': System, code: string)
    requires Stopped(s, GATHERING_EVIDENCE) && GatheringStops(s.spine.tools, code)
    requires Rely(s.spine, s'.spine) && KeepsDeadRows(s, s')
    ensures GatheringStops(s'.spine.tools, code) && !AllGathered(s'.spine.tools)
  {
    DeadIsFirstUnfinished(s, code);
    var t :| t != REASONING_TOOL && Dead(s, t) && UnfinishedIn(s.spine.tools, t, code);
    HasStays(s.spine, s'.spine, T1_INVENTORY);
    HasStays(s.spine, s'.spine, T2_SALES_DEMAND);
    hide Rely, Stopped;
  }

  lemma CalledForStays(s: System, s': System, run: RunRow, m: Move)
    requires Rely(s.spine, s'.spine) && KeepsDeadRows(s, s') && Standing(s, run.state, m.target)
    requires CalledFor(s.spine.tools, run, m)
    ensures CalledFor(s'.spine.tools, run, m)
  {
    if run.state == GATHERING_EVIDENCE && !AllGathered(s.spine.tools) {
      GatheringStaysStopped(s, s', m.code);
    } else if AllGathered(s.spine.tools) {
      EvidenceStays(s.spine.tools, s'.spine.tools);
    }
    HasStays(s.spine, s'.spine, REASONING_TOOL);
    hide Accepted, RefusedWith, ListEvidence, Cites, GatheringStops, RunForward;
  }

  lemma AdvanceKeepsDeadRows(s: System, c: CallerId, now: Time)
    requires Inv(s) && CanAdvance(s, c)
    ensures KeepsDeadRows(s, Advanced(s, c, now))
  {
    hide Inv, PcInv, SpineInv, Advanced;
    CallerHolds(s, c);
    OwnersHaveStarted(s.spine, s.callers[c]);
    forall t | Dead(s, t)
      ensures t in Advanced(s, c, now).spine.tools && Advanced(s, c, now).spine.tools[t] == s.spine.tools[t]
    {
      AdvanceOwners(s, c, now, t);
    }
  }

  lemma PendingIsStanding(s: System, c: CallerId)
    requires SpineInv(s.spine) && StopInv(s) && c in s.callers && s.callers[c].Moving? && PcInv(s.spine, s.callers[c])
    ensures Standing(s, s.callers[c].run.state, s.callers[c].move.target)
  {
    hide Stopped, ListEvidence, ValidateBundle, ValidCitations;
  }

  lemma EscalatedIsStanding(s: System)
    requires SpineInv(s.spine) && StopInv(s) && s.spine.run.state == ESCALATED
    ensures Standing(s, EscalatedFrom(s.spine.run.version), ESCALATED)
    ensures EscalatedFrom(s.spine.run.version) != DRAFTING_RECOMMENDATION
  {
    hide Stopped, ListEvidence, ValidateBundle, ValidCitations;
  }

  // ---------------------------------------------------------- preservation

  /** A caller takes up only the move called for. */
  lemma NewMoveIsCalledFor(s: System, c: CallerId, now: Time)
    requires SpineInv(s.spine) && CanAdvance(s, c) && PcInv(s.spine, s.callers[c])
    ensures var s' := Advanced(s, c, now);
            c in s'.callers && s'.callers[c].Moving? ==> CalledFor(s.spine.tools, s'.callers[c].run, s'.callers[c].move)
  {
    hide SpineInv, CalledFor, Advanced, Dispatch, AfterTool;
    MovesComeFrom(s, c, now);
    var pc := s.callers[c];
    if pc.Ready? && Dispatch(s.spine, pc.run).Moving? {
      DispatchIsCalledFor(s.spine, pc.run);
    } else if (pc.Holding? || pc.Closing?) && pc.tool in s.spine.tools {
      PcIsReadyBefore(s.spine, pc);
      AfterToolIsCalledFor(s.spine, pc.run, pc.tool);
    }
    hide PcInv;
  }

  lemma PcIsReadyBefore(sp: Spine, pc: Pc)
    requires PcInv(sp, pc) && (pc.Holding? || pc.Closing?)
    ensures pc.run.state == StageOf(pc.tool) && ToolReadyBefore(sp, pc.tool)
  {
    hide RowShape, RunForward, ListEvidence;
  }

  /** A move is taken up without touching a row. */
  lemma NewMovesTouchNothing(s: System, c: CallerId, now: Time)
    requires CanAdvance(s, c) && c in Advanced(s, c, now).callers && Advanced(s, c, now).callers[c].Moving?
    ensures Advanced(s, c, now).spine == s.spine
  {
    hide Dispatch, AfterTool, RowFor, CanTransition;
  }

  lemma AdvanceKeepsPending(s: System, c: CallerId, now: Time)
    requires Inv(s) && StopInv(s) && ReasonInv(s) && CanAdvance(s, c)
    ensures var s' := Advanced(s, c, now);
            forall d | d in s'.callers && s'.callers[d].Moving? :: CalledFor(s'.spine.tools, s'.callers[d].run, s'.callers[d].move)
  {
    hide Inv, SpineInv, PcInv, StopInv, Rely, CalledFor, Standing, KeepsDeadRows, Advanced, HasReason, LockInv;
    var s' := Advanced(s, c, now);
    CallerHolds(s, c);
    AdvanceIsSound(s, c, now);
    AdvanceKeepsDeadRows(s, c, now);
    forall d | d in s'.callers && s'.callers[d].Moving?
      ensures CalledFor(s'.spine.tools, s'.callers[d].run, s'.callers[d].move)
    {
      if d == c {
        NewMoveIsCalledFor(s, c, now);
        NewMovesTouchNothing(s, c, now);
      } else {
        CallerHolds(s, d);
        PendingIsStanding(s, d);
        CalledForStays(s, s', s.callers[d].run, s.callers[d].move);
      }
    }
  }

  lemma AdvanceKeepsReasoned(s: System, c: CallerId, now: Time)
    requires Inv(s) && StopInv(s) && ReasonInv(s) && CanAdvance(s, c)
    ensures HasReason(Advanced(s, c, now).spine)
  {
    hide Inv, SpineInv, PcInv, StopInv, Rely, CalledFor, Standing, KeepsDeadRows, HasReason, LockInv, Advanced;
    CallerHolds(s, c);
    var pc := s.callers[c];
    if pc.Moving? && CasWins(s.spine, pc.run) {
      MoveStep(s.spine, pc.run, pc.move, now);
      WinningMove(s, c, now);
      WinnersAreCurrent(s.spine, pc.run, pc.move);
      MoveIsReasoned(s.spine, pc.run, pc.move, now);
    } else {
      var s' := Advanced(s, c, now);
      NobodyEscalates(s, c, now);
      AdvanceIsSound(s, c, now);
      AdvanceKeepsDeadRows(s, c, now);
      if s.spine.run.state == ESCALATED {
        EscalatedIsStanding(s);
      }
      ReasonStays(s, s');
    }
  }

  lemma WinningMove(s: System, c: CallerId, now: Time)
    requires CanAdvance(s, c) && s.callers[c].Moving? && CasWins(s.spine, s.callers[c].run)
    requires CanTransition(s.callers[c].run.state, s.callers[c].move.target)
    ensures Advanced(s, c, now).spine == Transitioned(s.spine, s.callers[c].run, s.callers[c].move, now)
  {
    hide Transitioned, CanTransition;
  }

  /** Apart from a winning compare-and-set a step leaves the run as it is and logs no escalation. */
  lemma NobodyEscalates(s: System, c: CallerId, now: Time)
    requires CanAdvance(s, c) && !(s.callers[c].Moving? && CasWins(s.spine, s.callers[c].run))
    ensures var sp := Advanced(s, c, now).spine;
            sp.run == s.spine.run && EscalationCodes(sp.events) == EscalationCodes(s.spine.events)
  {
    hide Dispatch, AfterTool, RowFor, CanTransition, CasWins, EscalationCodes;
    if s.callers[c].Rejecting? {
      CodesAppend(s.spine.events, Rejection(CONTROL_REJECTED, s.callers[c].observed, "STATE_VERSION_CONFLICT"));
      assert EscalationCodes(s.spine.events) + [] == EscalationCodes(s.spine.events);
    }
  }

  lemma MoveIsReasoned(sp: Spine, run: RunRow, m: Move, now: Time)
    requires SpineInv(sp) && PcInv(sp, Moving(run, m)) && run == sp.run && HasReason(sp) && CalledFor(sp.tools, run, m)
    ensures HasReason(Transitioned(sp, run, m, now))
  {
    hide SpineInv, PcInv, CalledFor, AtStage, EscalatedFrom, EscalationCodes;
    JustifiedBy(sp, run, m);
    SameStageSameRule(sp, run, m, now);
    MoveLogs(sp, run, m, now);
  }

  lemma MoveLogs(sp: Spine, run: RunRow, m: Move, now: Time)
    requires EscalationCodes(sp.events) == [] && (m.eventType == RUN_ESCALATED <==> m.target == ESCALATED)
    ensures var after := Transitioned(sp, run, m, now);
            && after.tools == sp.tools && after.run.state == m.target
            && EscalationCodes(after.events) == if m.target == ESCALATED then [m.code] else []
  {
    hide EscalationCodes;
    CodesAppend(sp.events, Event(m.eventType, Some(run.state), Some(m.target), m.code));
    assert [] + [m.code] == [m.code];
  }

  lemma JustifiedBy(sp: Spine, run: RunRow, m: Move)
    requires SpineInv(sp) && PcInv(sp, Moving(run, m)) && run == sp.run
    ensures Working(run.state) && (m.eventType == RUN_ESCALATED <==> m.target == ESCALATED)
    ensures m.target == ESCALATED ==> EscalatedFrom(run.version + 1) == run.state
  {
    hide StageInv, TypedRows, RunForward;
  }

  /** The rules read nothing of a record but its stage and its cut-off time. */
  lemma SameStageSameRule(sp: Spine, run: RunRow, m: Move, now: Time)
    requires run == sp.run && CalledFor(sp.tools, run, m)
    requires m.target == ESCALATED ==> EscalatedFrom(run.version + 1) == run.state
    ensures m.target == ESCALATED ==>
              var after := Transitioned(sp, run, m, now).run;
              && m == Move(ESCALATED, RUN_ESCALATED, m.code, None)
              && CalledFor(sp.tools, AtStage(after, EscalatedFrom(after.version)), Move(ESCALATED, RUN_ESCALATED, m.code, None))
  {
    hide Accepted, RefusedWith, GatheringStops, Cites, ListEvidence, UnfinishedIn;
  }

  lemma ReasonStays(s: System, s': System)
    requires HasReason(s.spine) && Rely(s.spine, s'.spine) && KeepsDeadRows(s, s')
    requires s'.spine.run == s.spine.run && EscalationCodes(s'.spine.events) == EscalationCodes(s.spine.events)
    requires s.spine.run.state == ESCALATED ==> Standing(s, EscalatedFrom(s.spine.run.version), ESCALATED)
    ensures HasReason(s'.spine)
  {
    hide Rely, KeepsDeadRows, CalledFor, EscalationCodes, Standing, EscalatedFrom;
    if s.spine.run.state == ESCALATED {
      CalledForStays(s, s', AtStage(s.spine.run, EscalatedFrom(s.spine.run.version)),
                     Move(ESCALATED, RUN_ESCALATED, EscalationCodes(s.spine.events)[0], None));
    }
  }

  /** Reviews and rejections touch no tool row, escalate nothing and leave escalated runs alone. */
  lemma LogKeepsReasoned(sp: Spine, kind: EventType, stale: RunState, code: string)
    requires HasReason(sp) && kind in {CONTROL_REJECTED, REVIEW_REJECTED, INTAKE_REJECTED}
    ensures HasReason(WithEvent(sp, Rejection(kind, stale, code)))
  {
    hide CalledFor, EscalationCodes;
    CodesAppend(sp.events, Rejection(kind, stale, code));
    assert EscalationCodes(sp.events) + [] == EscalationCodes(sp.events);
  }

  lemma ReviewKeepsReasoned(sp: Spine, r: Review, stale: RunState)
    requires HasReason(sp)
    ensures HasReason(ServiceReviewed(sp, r, stale))
  {
    hide HasReason, ValidCitations, ListEvidence, IdsOf;
    LogKeepsReasoned(sp, CONTROL_REJECTED, stale, "REVIEWER_ROLE_REQUIRED");
    LogKeepsReasoned(sp, CONTROL_REJECTED, stale, "INVALID_EDITED_PAYLOAD");
    if ReviewError(sp, r).Some? {
      LogKeepsReasoned(sp, REVIEW_REJECTED, sp.run.state, ReviewError(sp, r).value);
    } else {
      ClosureIsReasoned(sp, r);
    }
  }

  lemma ClosureIsReasoned(sp: Spine, r: Review)
    requires HasReason(sp) && ReviewError(sp, r) == None
    ensures HasReason(Reviewed(sp, r))
  {
    hide CalledFor, EscalationCodes;
    var target := ReviewTarget(r.action);
    var decided := Event(REVIEW_DECIDED, Some(AWAITING_HUMAN), Some(target), "");
    var closed := Event(RUN_CLOSED, Some(target), Some(CLOSED), "");
    CodesAppend(sp.events, decided);
    CodesAppend(sp.events + [decided], closed);
    assert sp.events + [decided, closed] == (sp.events + [decided]) + [closed];
  }

  lemma ReviewTouchesNoTool(sp: Spine, r: Review, stale: RunState)
    ensures ServiceReviewed(sp, r, stale).tools == sp.tools
  {
    hide ValidCitations, ListEvidence, IdsOf;
  }

  lemma StepKeepsReasons(s: System, step: Step)
    requires Inv(s) && StopInv(s) && ReasonInv(s)
    ensures ReasonInv(Apply(s, step))
  {
    hide Inv, StopInv, CalledFor, HasReason, Advanced, ServiceReviewed;
    match step
    case Advance(c, now) =>
      if CanAdvance(s, c) {
        AdvanceKeepsPending(s, c, now);
        AdvanceKeepsReasoned(s, c, now);
      }
    case Decide(r, stale) =>
      ReviewKeepsReasoned(s.spine, r, stale);
      ReviewTouchesNoTool(s.spine, r, stale);
    case LogRejection(kind, stale, code) =>
      if kind in {CONTROL_REJECTED, REVIEW_REJECTED, INTAKE_REJECTED} {
        LogKeepsReasoned(s.spine, kind, stale, code);
      }
    case _ =>
  }

  lemma {:induction false} RunKeepsReasons(g: Config, run: seq<Step>)
    ensures ReasonInv(After(g, run))
  {
    hide Inv, StopInv, ReasonInv, Apply;
    if run == [] {
      StartIsReasoned(g);
    } else {
      RunKeepsReasons(g, Before(run));
      RunKeepsInv(g, Before(run));
      RunKeepsStop(g, Before(run));
      StepKeepsReasons(After(g, Before(run)), Last(run));
    }
  }

  lemma StartIsReasoned(g: Config)
    ensures ReasonInv(Start(g))
  {
    var events := Start(g).spine.events;
    assert events[..0] == [];
  }

  // -------------------------------------------------------------- theorems

  /** Whoever is about to move a run, in any reachable state, is about to make the move that its stage calls for. */
  lemma EveryMoveIsCalledFor(g: Config, run: seq<Step>, c: CallerId)
    requires c in After(g, run).callers && After(g, run).callers[c].Moving?
    ensures var s := After(g, run);
            CalledFor(s.spine.tools, s.callers[c].run, s.callers[c].move)
  {
    hide After, CalledFor, HasReason;
    RunKeepsReasons(g, run);
  }

  /**
   A run is escalated only for a reason that its rows show, and logs its code: the first evidence tool without a
   result, the first check of the bundle that fails, or reasoning without a result. A run that is not escalated has
   logged no code, and one beyond the quality checks has one sound item of each tool.
   */
  lemma EscalationHasItsReason(g: Config, run: seq<Step>)
    ensures var sp := After(g, run).spine;
            var codes := EscalationCodes(sp.events);
            && (sp.run.state != ESCALATED ==> codes == [])
            && (sp.run.state == ESCALATED ==>
                  && |codes| == 1 && sp.run.version in {3, 4, 5}
                  && (sp.run.version == 3 ==> !AllGathered(sp.tools) && GatheringStops(sp.tools, codes[0]))
                  && (sp.run.version == 4 ==> AllGathered(sp.tools) && RefusedWith(ListEvidence(sp.tools), g.asOf, codes[0]))
                  && (sp.run.version == 5 ==> UnfinishedIn(sp.tools, REASONING_TOOL, codes[0])))
            && (Reached(sp.run) >= 4 ==> Accepted(ListEvidence(sp.tools), g.asOf))
  {
    RunKeepsReasons(g, run);
    RunKeepsInv(g, run);
    ConfigStays(g, run);
    hide After, CalledFor;
    SpineHolds(After(g, run));
    BundleAcceptedIff(ListEvidence(After(g, run).spine.tools), g.asOf);
    hide Inv, EscalationCodes;
    ReasonsAre(After(g, run).spine);
  }

  lemma ReasonsAre(sp: Spine)
    requires SpineInv(sp) && HasReason(sp)
    ensures sp.run.state == ESCALATED ==> sp.run.version in {3, 4, 5}
    ensures sp.run.state == ESCALATED && sp.run.version == 3 ==>
              !AllGathered(sp.tools) && GatheringStops(sp.tools, EscalationCodes(sp.events)[0])
    ensures sp.run.state == ESCALATED && sp.run.version == 4 ==>
              AllGathered(sp.tools) && RefusedWith(ListEvidence(sp.tools), sp.run.asOf, EscalationCodes(sp.events)[0])
    ensures sp.run.state == ESCALATED && sp.run.version == 5 ==>
              UnfinishedIn(sp.tools, REASONING_TOOL, EscalationCodes(sp.events)[0])
    ensures Reached(sp.run) >= 4 ==> ValidateBundle(ListEvidence(sp.tools), sp.run.asOf) == None
  {
    hide EscalationCodes, Accepted, RefusedWith, GatheringStops, ListEvidence, ValidateBundle, UnfinishedIn;
  }
}
