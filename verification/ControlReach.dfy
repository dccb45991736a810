/** Every run that follows a plan can go on, within the plan, until it rests at the plan's destination. */
module ControlReach {
  import opened Wrappers
  import opened Evidence
  import opened ControlModel
  import opened ControlSystem
  import opened ControlInvariant
  import opened ControlTheorems
  import opened ControlConfluence
  import opened ControlProgress

  /** Some live caller owns the started row of the tool. */
  predicate Owned(s: System, t: Tool) {
    && t in s.locks && s.locks[t] in s.callers
    && (s.callers[s.locks[t]].Owning? || s.callers[s.locks[t]].Invoked?) && s.callers[s.locks[t]].tool == t
  }

  /** The tools whose first claim is still to come, or under way. */
  function Unsettled(s: System): set<Tool> {
    set t: Tool | t !in s.spine.tools || Owned(s, t)
  }

  /** The next step of a caller under the plan: an owner gets the planned outcome, or dies if it is to be abandoned. */
  function PlannedStep(p: Plan, s: System, c: CallerId): Step {
    if c in s.callers && (s.callers[c].Owning? || s.callers[c].Invoked?) then
      match FateOf(p, s.callers[c].tool)
      case Abandoned => Crash(c)
      case Gives(o) => if s.callers[c].Owning? then Invoke(c, o) else Advance(c, 0.0)
    else Advance(c, 0.0)
  }

  lemma PlannedStepFollows(p: Plan, s: System, c: CallerId)
    ensures Follows(p, s, PlannedStep(p, s, c))
  {
  }

  lemma AdvanceSettles(s: System, d: CallerId, now: Time)
    requires SpineInv(s.spine) && LockInv(s) && CanAdvance(s, d) && PcInv(s.spine, s.callers[d])
    ensures Unsettled(Advanced(s, d, now)) <= Unsettled(s)
  {
    AdvanceTouches(s, d, now);
    AdvanceOwns(s, d, now);
    ToolsStay(s, d, now);
    hide SpineInv, PcInv, Advanced;
  }

  lemma AdvanceOwns(s: System, d: CallerId, now: Time)
    requires CanAdvance(s, d) && PcInv(s.spine, s.callers[d])
    ensures var s' := Advanced(s, d, now);
            && (forall e | e in s'.callers && e != d :: e in s.callers && s'.callers[e] == s.callers[e])
            && (d in s'.callers && (s'.callers[d].Owning? || s'.callers[d].Invoked?) ==> s'.callers[d].tool !in s.spine.tools)
  {
    hide ToolReady, ToolReadyBefore, MoveJustified, RowShape, RunForward, CanTransition, AfterTool, Dispatch;
    AfterToolOwnsNothing();
    DispatchOwnsNothing(s.spine);
  }

  lemma AfterToolOwnsNothing()
    ensures forall run, t, row :: !AfterTool(run, t, row).Owning? && !AfterTool(run, t, row).Invoked?
  {
  }

  lemma DispatchOwnsNothing(sp: Spine)
    ensures forall run :: !Dispatch(sp, run).Owning? && !Dispatch(sp, run).Invoked?
  {
  }

  lemma ToolsStay(s: System, d: CallerId, now: Time)
    requires CanAdvance(s, d)
    ensures forall t | t in s.spine.tools :: t in Advanced(s, d, now).spine.tools
  {
    hide AfterTool, Dispatch, RowFor, CanTransition;
  }

  lemma InvokeSettles(s: System, d: CallerId, o: Outcome)
    requires CanInvoke(s, d, o)
    ensures Unsettled(Apply(s, Invoke(d, o))) <= Unsettled(s)
  {
  }

  /** The death of an owner settles its tool. */
  lemma CrashSettles(s: System, d: CallerId)
    requires LockInv(s) && d in s.callers && (s.callers[d].Owning? || s.callers[d].Invoked?) && PcInv(s.spine, s.callers[d])
    ensures Unsettled(Dropped(s, d)) < Unsettled(s)
  {
    var t := s.callers[d].tool;
    assert HeldTool(s.callers[d]) == Some(t);
    OwnerHasItsRow(s.spine, s.callers[d]);
    hide PcInv;
    assert t in Unsettled(s) && t !in Unsettled(Dropped(s, d));
  }

  lemma OwnerHasItsRow(sp: Spine, pc: Pc)
    requires PcInv(sp, pc) && (pc.Owning? || pc.Invoked?)
    ensures pc.tool in sp.tools
  {
  }

  lemma JoinSettlesNothing(s: System, c: CallerId)
    requires LockInv(s) && c !in s.callers
    ensures Unsettled(Apply(s, Join(c))) == Unsettled(s)
  {
  }

  /** One planned step of whoever's turn it is brings `c` nearer, unless it is the death of an owner. */
  lemma PlannedTurn(p: Plan, s: System, c: CallerId)
    requires Inv(s) && TypedPlan(p) && c in s.callers && !s.callers[c].Returned?
    ensures var d := TurnOf(s, c);
            var step := PlannedStep(p, s, d);
            var s' := Apply(s, step);
            && d in s.callers && Unsettled(s') <= Unsettled(s)
            && (if step.Crash? then Unsettled(s') < Unsettled(s) && (d != c ==> c in s'.callers)
                else
                  && c in s'.callers && d in s'.callers && Fuel(s'.callers[d]) < Fuel(s.callers[d])
                  && (d != c ==> s'.callers[c] == s.callers[c] && (TurnOf(s', c) == d || TurnOf(s', c) == c)))
  {
    var d := TurnOf(s, c);
    var step := PlannedStep(p, s, d);
    TurnParts(s, c);
    if step.Crash? {
      hide *;
      CrashIs(p, s, d);
      CrashSettles(s, d);
    } else {
      hide *;
      LiveStepIs(p, s, d);
      StepSpendsFuel(s, step, d);
      StepSpendsFuel(s, step, c);
      if step.Advance? {
        AdvanceSettles(s, d, 0.0);
        WaiterStays(s, c, 0.0);
      } else {
        InvokeSettles(s, d, step.outcome);
        WaiterStaysOnInvoke(s, c, step.outcome);
      }
    }
  }

  /** What the turn's holder does if it does not die. */
  lemma LiveStepIs(p: Plan, s: System, d: CallerId)
    requires TypedPlan(p) && Enabled(s, d) && !PlannedStep(p, s, d).Crash?
    ensures var step := PlannedStep(p, s, d);
            && Takes(s, d, step)
            && (if step.Advance? then step == Advance(d, 0.0) && CanAdvance(s, d) && Apply(s, step) == Advanced(s, d, 0.0)
                else step.Invoke? && step.caller == d && CanInvoke(s, d, step.outcome))
            && forall c | c != d :: step != Crash(c)
  {
    hide Advanced;
  }

  lemma WaiterStays(s: System, c: CallerId, now: Time)
    requires Inv(s) && c in s.callers && !s.callers[c].Returned? && CanAdvance(s, TurnOf(s, c))
    ensures var d, s' := TurnOf(s, c), Advanced(s, TurnOf(s, c), now);
            d != c && c in s'.callers ==> s'.callers[c] == s.callers[c] && (TurnOf(s', c) == d || TurnOf(s', c) == c)
  {
    TurnParts(s, c);
    AdvanceTouches(s, TurnOf(s, c), now);
    AdvanceOwns(s, TurnOf(s, c), now);
    hide Inv, SpineInv, PcInv, LockInv, Advanced, CanAdvance;
  }

  lemma WaiterStaysOnInvoke(s: System, c: CallerId, o: Outcome)
    requires c in s.callers && CanInvoke(s, TurnOf(s, c), o)
    ensures var d, s' := TurnOf(s, c), Apply(s, Invoke(TurnOf(s, c), o));
            d != c ==> c in s'.callers && s'.callers[c] == s.callers[c] && TurnOf(s', c) == d
  {
  }

  lemma TurnParts(s: System, c: CallerId)
    requires Inv(s) && c in s.callers && !s.callers[c].Returned?
    ensures var d := TurnOf(s, c);
            && Enabled(s, d) && d in s.callers && PcInv(s.spine, s.callers[d]) && SpineInv(s.spine) && LockInv(s)
            && (d != c ==> s.callers[c].Wants? && HeldTool(s.callers[d]) == Some(s.callers[c].tool))
  {
    TurnIsEnabled(s, c);
  }

  lemma CrashIs(p: Plan, s: System, d: CallerId)
    requires d in s.callers && PlannedStep(p, s, d).Crash?
    ensures s.callers[d].Owning? || s.callers[d].Invoked?
    ensures Apply(s, PlannedStep(p, s, d)) == Dropped(s, d)
    ensures forall c | c in s.callers && c != d :: c in Dropped(s, d).callers
  {
  }

  lemma {:induction false} FreshNumber(taken: set<nat>) returns (c: nat)
    ensures c !in taken && forall d | d in taken :: d < c
  {
    if taken == {} {
      c := 0;
    } else {
      var d :| d in taken;
      var above := FreshNumber(taken - {d});
      assert forall e | e in taken :: e == d || e in taken - {d};
      c := if above > d then above else d + 1;
    }
  }

  lemma FollowsOneMore(p: Plan, g: Config, run: seq<Step>, step: Step)
    requires FollowsPlan(p, g, run) && Follows(p, After(g, run), step)
    ensures FollowsPlan(p, g, run + [step]) && After(g, run + [step]) == Apply(After(g, run), step)
  {
    assert (run + [step])[..|run|] == run;
  }

  lemma ReturnedMeansRest(g: Config, run: seq<Step>, c: CallerId)
    requires c in After(g, run).callers && After(g, run).callers[c].Returned?
    ensures !Working(After(g, run).spine.run.state)
  {
    RunKeepsInv(g, run);
    hide After, SpineInv, PcInv, LockInv, CallInv;
    ReturnedSawTheEnd(After(g, run).spine, After(g, run).callers[c]);
  }

  /** Drive `c`; should it have to die as an owner, send in another caller. */
  lemma {:induction false} DriveToRest(p: Plan, g: Config, run: seq<Step>, c: CallerId) returns (more: seq<Step>)
    requires TypedPlan(p) && FollowsPlan(p, g, run) && c in After(g, run).callers
    ensures FollowsPlan(p, g, run + more) && !Working(After(g, run + more).spine.run.state)
    decreases Unsettled(After(g, run)), Fuel(After(g, run).callers[c]), WaitFuel(After(g, run), c)
  {
    hide Inv, PcInv, SpineInv, PlannedStep, Apply, Fuel, TurnOf, After, FollowsPlan, Follows, Unsettled, LockInv, TypedPlan;
    var s := After(g, run);
    RunKeepsInv(g, run);
    if s.callers[c].Returned? {
      more := [];
      assert run + more == run;
      ReturnedMeansRest(g, run, c);
    } else {
      var d := TurnOf(s, c);
      var step := PlannedStep(p, s, d);
      PlannedStepFollows(p, s, d);
      FollowsOneMore(p, g, run, step);
      PlannedTurn(p, s, c);
      RunKeepsInv(g, run + [step]);
      FuelHolds(s);
      FuelHolds(After(g, run + [step]));
      if step.Crash? && d == c {
        var next := NextDriver(p, g, run + [step]);
        var rest := DriveToRest(p, g, run + [step] + [Join(next)], next);
        more := [step, Join(next)] + rest;
        assert run + more == run + [step] + [Join(next)] + rest;
      } else {
        var rest := DriveToRest(p, g, run + [step], c);
        more := [step] + rest;
        assert run + more == run + [step] + rest;
      }
    }
  }

  lemma NextDriver(p: Plan, g: Config, run: seq<Step>) returns (next: CallerId)
    requires FollowsPlan(p, g, run)
    ensures FollowsPlan(p, g, run + [Join(next)]) && next in After(g, run + [Join(next)]).callers
    ensures Unsettled(After(g, run + [Join(next)])) == Unsettled(After(g, run))
  {
    hide Inv, Apply, After, FollowsPlan, Unsettled, LockInv;
    next := FreshNumber(After(g, run).callers.Keys);
    FollowsOneMore(p, g, run, Join(next));
    LocksHold(g, run);
    JoinSettlesNothing(After(g, run), next);
    JoinIsThere(After(g, run), next);
  }

  lemma LocksHold(g: Config, run: seq<Step>)
    ensures LockInv(After(g, run))
  {
    RunKeepsInv(g, run);
  }

  lemma JoinIsThere(s: System, c: CallerId)
    ensures c in Apply(s, Join(c)).callers
  {
  }

  /**
   Every run that follows a plan has a continuation that follows it too and comes to rest, and there the state, the
   draft and the escalation log are the plan's.
   */
  lemma DestinationIsReached(p: Plan, g: Config, run: seq<Step>) returns (more: seq<Step>)
    requires TypedPlan(p) && FollowsPlan(p, g, run)
    ensures FollowsPlan(p, g, run + more)
    ensures var sp, d := After(g, run + more).spine, DestinationOf(p, g.asOf);
            && !Working(sp.run.state)
            && sp.run.state == (if d.Escalates? then ESCALATED else if sp.decision.Some? then CLOSED else AWAITING_HUMAN)
            && sp.run.version == (if d.Escalates? then d.version else if sp.decision.Some? then 8 else 6)
            && EscalationCodes(sp.events) == (if d.Escalates? then [d.code] else [])
            && sp.run.draft == PlannedDraft(p, g.asOf)
  {
    hide Apply, After, FollowsPlan, TypedPlan, DestinationOf, PlannedDraft, EscalationCodes;
    var c := NextDriver(p, g, run);
    var rest := DriveToRest(p, g, run + [Join(c)], c);
    more := [Join(c)] + rest;
    assert run + more == run + [Join(c)] + rest;
    RestIsPlanned(p, g, run + more);
  }
}
