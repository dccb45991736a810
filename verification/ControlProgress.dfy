/** Every caller of the control spine gets out: its own steps are bounded, and somebody can always take one. */
module ControlProgress {
  import opened Wrappers
  import opened Evidence
  import opened ControlModel
  import opened ControlSystem
  import opened ControlInvariant
  import opened ControlTheorems

  function ToolFuel(t: Tool): nat {
    match t
    case T1_INVENTORY => 20
    case T2_SALES_DEMAND => 14
    case T3_SUPPLIER => 8
    case REASONING_TOOL => 8
  }

  function LocalFuel(pc: Pc): nat {
    match pc
    case Ready(_) => 29
    case Wants(_, t, _) => ToolFuel(t) + 6
    case Holding(_, t, _) => ToolFuel(t) + 5
    case Vacant(_, t, _) => ToolFuel(t) + 4
    case Owning(_, t, _) => ToolFuel(t) + 3
    case Invoked(_, t, _, _) => ToolFuel(t) + 2
    case Closing(_, t, _) => ToolFuel(t) + 1
    case Moving(_, _) => 5
    case Refused(_) => 4
    case Rejecting(_, _) => 3
    case Reloading(_) => 2
    case Returned(_) => 0
  }

  /** What a caller has left to do: the versions still ahead of its record, then the points of one pass. */
  function Fuel(pc: Pc): int {
    30 * (9 - pc.run.version) + LocalFuel(pc)
  }

  lemma FuelIsBounded(sp: Spine, pc: Pc)
    requires PcInv(sp, pc)
    ensures 0 < Fuel(pc) <= 299
  {
  }

  /** A step that the caller itself takes. */
  predicate Takes(s: System, c: CallerId, step: Step) {
    match step
    case Advance(d, _) => d == c && CanAdvance(s, c)
    case Invoke(d, o) => d == c && CanInvoke(s, c, o)
    case _ => false
  }

  lemma DispatchFuel(sp: Spine, run: RunRow)
    ensures Dispatch(sp, run).run == run && LocalFuel(Dispatch(sp, run)) < 29
  {
  }

  lemma AfterToolFuel(run: RunRow, t: Tool, row: ToolRow)
    ensures AfterTool(run, t, row).run == run && LocalFuel(AfterTool(run, t, row)) <= ToolFuel(t)
  {
  }

  /** A conflict is found only when the run has strictly moved on, so even the retry is progress. */
  lemma AdvanceSpendsFuel(s: System, c: CallerId, now: Time)
    requires SpineInv(s.spine) && CanAdvance(s, c) && PcInv(s.spine, s.callers[c])
    ensures var s' := Advanced(s, c, now);
            c in s'.callers && Fuel(s'.callers[c]) < Fuel(s.callers[c])
  {
    hide SpineInv, Dispatch, AfterTool, ToolReady, ToolReadyBefore, MoveJustified, RowShape, RunForward, CanTransition;
    var pc := s.callers[c];
    match pc
    case Ready(run) => DispatchFuel(s.spine, run);
    case Moving(run, m) => MoveStep(s.spine, run, m, now);
    case Vacant(run, t, b) => InsertStep(s.spine, run, t, b);
    case Holding(run, t, b) =>
      if t in s.spine.tools {
        AfterToolFuel(run, t, s.spine.tools[t]);
      }
    case Closing(run, t, row) => AfterToolFuel(run, t, row);
    case _ =>
  }

  /** Each step of a caller costs it fuel; nobody else's step does, and only a crash takes it away. */
  lemma StepSpendsFuel(s: System, step: Step, c: CallerId)
    requires Inv(s) && c in s.callers && step != Crash(c)
    ensures var s' := Apply(s, step);
            c in s'.callers && Fuel(s'.callers[c]) <= Fuel(s.callers[c]) - (if Takes(s, c, step) then 1 else 0)
  {
    hide SpineInv, PcInv, CallInv, LockInv, Advanced;
    match step
    case Advance(d, now) =>
      if CanAdvance(s, d) {
        AdvanceIsSound(s, d, now);
        if d == c {
          AdvanceSpendsFuel(s, c, now);
        }
      }
    case _ =>
  }

  function StepsTaken(g: Config, run: seq<Step>, more: seq<Step>, c: CallerId): nat {
    if more == [] then 0
    else StepsTaken(g, run, Before(more), c) + if Takes(After(g, run + Before(more)), c, Last(more)) then 1 else 0
  }

  /** A caller that is not killed never raises, and takes at most 299 steps whatever the others do. */
  lemma {:induction false} CallersTakeBoundedlyManySteps(g: Config, run: seq<Step>, more: seq<Step>, c: CallerId)
    requires c in After(g, run).callers && Crash(c) !in more
    ensures c in After(g, run + more).callers
    ensures StepsTaken(g, run, more, c) + Fuel(After(g, run + more).callers[c]) <= Fuel(After(g, run).callers[c])
    ensures StepsTaken(g, run, more, c) <= 298
    decreases |more|
  {
    hide Inv, Fuel, PcInv, SpineInv;
    RunKeepsInv(g, run);
    RunKeepsInv(g, run + more);
    PcHolds(After(g, run), c);
    FuelIsBounded(After(g, run).spine, After(g, run).callers[c]);
    if more == [] {
      assert run + more == run;
    } else {
      CallersTakeBoundedlyManySteps(g, run, Before(more), c);
      assert (run + more)[..|run + more| - 1] == run + Before(more);
      RunKeepsInv(g, run + Before(more));
      StepSpendsFuel(After(g, run + Before(more)), Last(more), c);
    }
    PcHolds(After(g, run + more), c);
    FuelIsBounded(After(g, run + more).spine, After(g, run + more).callers[c]);
  }

  lemma PcHolds(s: System, c: CallerId)
    requires Inv(s) && c in s.callers
    ensures PcInv(s.spine, s.callers[c])
  {
  }

  // ------------------------------------------------------------- liveness

  /** The caller can go on by itself, or waits only for its own external call. */
  predicate Enabled(s: System, c: CallerId) {
    CanAdvance(s, c) || (c in s.callers && s.callers[c].Owning?)
  }

  /** Whose turn it is if `c` is to get on: `c` itself, or the live owner of the one lock it waits for. */
  function TurnOf(s: System, c: CallerId): CallerId {
    if c in s.callers && s.callers[c].Wants? && s.callers[c].tool in s.locks then s.locks[s.callers[c].tool] else c
  }

  /** Nobody is ever stuck: a lock has a live holder, and a holder waits for no lock. */
  lemma NobodyIsStuck(g: Config, run: seq<Step>, c: CallerId)
    requires c in After(g, run).callers && !After(g, run).callers[c].Returned?
    ensures Enabled(After(g, run), TurnOf(After(g, run), c))
  {
    RunKeepsInv(g, run);
    hide SpineInv, PcInv, CallInv;
    TurnIsEnabled(After(g, run), c);
  }

  lemma TurnIsEnabled(s: System, c: CallerId)
    requires LockInv(s) && c in s.callers && !s.callers[c].Returned?
    ensures Enabled(s, TurnOf(s, c))
    ensures TurnOf(s, c) != c ==> s.callers[c].Wants? && HeldTool(s.callers[TurnOf(s, c)]) == Some(s.callers[c].tool)
  {
  }

  function NextStep(s: System, c: CallerId): Step {
    if c in s.callers && s.callers[c].Owning? then Invoke(c, Fails("")) else Advance(c, 0.0)
  }

  /** What the owner that `c` waits for, if there is one, has left to do. */
  ghost function WaitFuel(s: System, c: CallerId): int {
    var d := TurnOf(s, c);
    if d == c || d !in s.callers then 0 else Fuel(s.callers[d])
  }

  lemma TurnIsTaken(s: System, c: CallerId)
    requires Inv(s) && c in s.callers && !s.callers[c].Returned?
    ensures var d, s' := TurnOf(s, c), Apply(s, NextStep(s, TurnOf(s, c)));
            && !NextStep(s, d).Crash?
            && d in s.callers && c in s'.callers && d in s'.callers
            && Fuel(s'.callers[d]) < Fuel(s.callers[d])
            && (d != c ==> s'.callers[c] == s.callers[c] && (TurnOf(s', c) == d || TurnOf(s', c) == c))
  {
    hide SpineInv, PcInv, CallInv, Advanced, Fuel;
    var d := TurnOf(s, c);
    TurnIsEnabled(s, c);
    StepSpendsFuel(s, NextStep(s, d), d);
    StepSpendsFuel(s, NextStep(s, d), c);
    if d != c && !s.callers[d].Owning? {
      assert PcInv(s.spine, s.callers[d]);
      AdvanceIsSound(s, d, 0.0);
      AdvanceTouches(s, d, 0.0);
    }
  }

  /** From every reachable state, every caller can be brought to return without killing anybody. */
  lemma {:induction false} EveryCallerCanReturn(g: Config, run: seq<Step>, c: CallerId) returns (more: seq<Step>)
    requires c in After(g, run).callers
    ensures c in After(g, run + more).callers && After(g, run + more).callers[c].Returned?
    ensures forall step | step in more :: !step.Crash?
    decreases Fuel(After(g, run).callers[c]), WaitFuel(After(g, run), c)
  {
    hide Inv, PcInv, SpineInv, NextStep, Apply, Fuel, TurnOf;
    var s := After(g, run);
    RunKeepsInv(g, run);
    if s.callers[c].Returned? {
      more := [];
      assert run + more == run;
    } else {
      var step := NextStep(s, TurnOf(s, c));
      assert (run + [step])[..|run|] == run;
      TurnIsTaken(s, c);
      RunKeepsInv(g, run + [step]);
      FuelHolds(s);
      FuelHolds(After(g, run + [step]));
      var rest := EveryCallerCanReturn(g, run + [step], c);
      more := [step] + rest;
      assert run + more == run + [step] + rest;
    }
  }

  lemma FuelHolds(s: System)
    requires Inv(s)
    ensures forall c | c in s.callers :: 0 < Fuel(s.callers[c])
  {
    hide SpineInv, PcInv, Fuel;
    forall c | c in s.callers
      ensures 0 < Fuel(s.callers[c])
    {
      FuelIsBounded(s.spine, s.callers[c]);
    }
  }
}
