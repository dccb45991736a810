/**
 The control spine as an interleaved system: any number of `_resume` callers over one run, each with its own
 possibly stale record, crashing anywhere, next to reviews and to rejections logged with arbitrarily old states.
 */
module ControlSystem {
  import opened Wrappers
  import opened Evidence
  import opened ControlModel

  type CallerId = nat

  /** What an external call gives back to the caller that owns it. */
  datatype Outcome = Yields(result: ToolResult) | Fails(code: string)

  /** Where a caller stands between two atomic steps, with the record it last saw. */
  datatype Pc =
    | Ready(run: RunRow)                                            // top of the resume loop
    | Wants(run: RunRow, tool: Tool, bundle: seq<Evidence>)         // blocks on the tool's advisory lock
    | Holding(run: RunRow, tool: Tool, bundle: seq<Evidence>)       // lock taken, about to look for the row
    | Vacant(run: RunRow, tool: Tool, bundle: seq<Evidence>)        // no row seen, about to insert it
    | Owning(run: RunRow, tool: Tool, bundle: seq<Evidence>)        // row inserted, about to call out
    | Invoked(run: RunRow, tool: Tool, bundle: seq<Evidence>, outcome: Outcome)  // about to complete the row
    | Closing(run: RunRow, tool: Tool, row: ToolRow)                // about to release the lock
    | Moving(run: RunRow, move: Move)                               // about to compare and set
    | Refused(run: RunRow)                                          // lost the compare-and-set
    | Rejecting(run: RunRow, observed: RunState)                    // about to log the conflict
    | Reloading(run: RunRow)                                        // about to read the row again
    | Returned(run: RunRow)

  /** One external call: the tool, and the evidence handed to it. */
  datatype Call = Call(tool: Tool, bundle: seq<Evidence>)

  datatype System = System(
    spine: Spine,
    locks: map<Tool, CallerId>,
    callers: map<CallerId, Pc>,
    calls: seq<Call>)

  datatype Config = Config(shadow: bool, reviewer: string, asOf: Time)

  function Start(g: Config): System {
    System(Created(g.shadow, g.reviewer, g.asOf), map[], map[], [])
  }

  datatype Step =
    | Join(caller: CallerId)
    | Advance(caller: CallerId, now: Time)
    | Invoke(caller: CallerId, outcome: Outcome)
    | Crash(caller: CallerId)
    | Decide(review: Review, stale: RunState)
    | LogRejection(kind: EventType, stale: RunState, code: string)

  // ------------------------------------------------- what a caller does next

  predicate Working(s: RunState) {
    s in {CREATED, VALIDATING, GATHERING_EVIDENCE, QUALITY_CHECKS, REASONING, DRAFTING_RECOMMENDATION}
  }

  function Forward(target: RunState, eventType: EventType): Move {
    Move(target, eventType, "", None)
  }

  function Escalation(code: string): Move {
    Move(ESCALATED, RUN_ESCALATED, code, None)
  }

  /** `_forbidden_retry_code` on a row that another caller left behind. */
  function RetryCode(t: Tool, row: ToolRow): string {
    if row.Failed? then row.code
    else if t == REASONING_TOOL then "REASONING_RETRY_FORBIDDEN" else "EVIDENCE_RETRY_FORBIDDEN"
  }

  /** What follows once a tool's row has been observed or completed. */
  function AfterTool(run: RunRow, t: Tool, row: ToolRow): Pc {
    if !row.Completed? then Moving(run, Escalation(RetryCode(t, row)))
    else match t
      case T1_INVENTORY => Wants(run, T2_SALES_DEMAND, [])
      case T2_SALES_DEMAND => Wants(run, T3_SUPPLIER, [])
      case T3_SUPPLIER => Moving(run, Forward(QUALITY_CHECKS, EVIDENCE_GATHERED))
      case REASONING_TOOL => Moving(run, Forward(DRAFTING_RECOMMENDATION, REASONING_COMPLETED))
  }

  function QualityMove(tools: map<Tool, ToolRow>, asOf: Time): Move {
    var failure := ValidateBundle(ListEvidence(tools), asOf);
    if failure.Some? then Escalation(failure.value) else Forward(REASONING, QUALITY_CHECKS_PASSED)
  }

  function DraftMove(tools: map<Tool, ToolRow>): Move {
    if REASONING_TOOL !in tools || !tools[REASONING_TOOL].Completed? then Escalation("REASONING_RESULT_UNAVAILABLE")
    else if !tools[REASONING_TOOL].result.Reasoned?
         || !ValidCitations(tools[REASONING_TOOL].result.result, IdsOf(ListEvidence(tools)))
    then Escalation("INVALID_REASONING_OUTPUT")
    else Move(AWAITING_HUMAN, DRAFT_READY, "", Some(tools[REASONING_TOOL].result.result))
  }

  /** One pass of `_resume_step` on the record at hand. */
  function Dispatch(sp: Spine, run: RunRow): Pc {
    match run.state
    case CREATED => Moving(run, Forward(VALIDATING, VALIDATION_STARTED))
    case VALIDATING => Moving(run, Forward(GATHERING_EVIDENCE, EVIDENCE_GATHERING_STARTED))
    case GATHERING_EVIDENCE => Wants(run, T1_INVENTORY, [])
    case QUALITY_CHECKS => Moving(run, QualityMove(sp.tools, run.asOf))
    case REASONING => Wants(run, REASONING_TOOL, ListEvidence(sp.tools))
    case DRAFTING_RECOMMENDATION => Moving(run, DraftMove(sp.tools))
    case _ => Returned(run)
  }

  /** The row `complete_tool` writes; a reasoning result with an unknown citation is recorded as a failure. */
  function RowFor(bundle: seq<Evidence>, outcome: Outcome): ToolRow {
    match outcome
    case Fails(code) => Failed(code)
    case Yields(result) =>
      if result.Reasoned? && !ValidCitations(result.result, IdsOf(bundle)) then Failed("INVALID_REASONING_OUTPUT")
      else Completed(result)
  }

  predicate WellTyped(t: Tool, outcome: Outcome) {
    outcome.Yields? ==>
      if t == REASONING_TOOL then outcome.result.Reasoned?
      else outcome.result.Item? && outcome.result.item.tool == t
  }

  function HeldTool(pc: Pc): Option<Tool> {
    if pc.Holding? || pc.Vacant? || pc.Owning? || pc.Invoked? || pc.Closing? then Some(pc.tool) else None
  }

  // --------------------------------------------------------- atomic steps

  predicate CanAdvance(s: System, c: CallerId) {
    c in s.callers
    && match s.callers[c]
       case Wants(_, t, _) => t !in s.locks
       case Owning(_, _, _) => false
       case Returned(_) => false
       case _ => true
  }

  function At(s: System, c: CallerId, pc: Pc): System {
    s.(callers := s.callers[c := pc])
  }

  /** The caller's session ends: Postgres drops its advisory lock and nothing else. */
  function Dropped(s: System, c: CallerId): System {
    s.(callers := s.callers - {c}, locks := map t | t in s.locks && s.locks[t] != c :: s.locks[t])
  }

  function Advanced(s: System, c: CallerId, now: Time): System
    requires CanAdvance(s, c)
  {
    match s.callers[c]
    case Ready(run) => At(s, c, Dispatch(s.spine, run))
    case Wants(run, t, b) => At(s.(locks := s.locks[t := c]), c, Holding(run, t, b))
    case Holding(run, t, b) =>
      if t in s.spine.tools then At(s.(locks := s.locks - {t}), c, AfterTool(run, t, s.spine.tools[t]))
      else At(s, c, Vacant(run, t, b))
    case Vacant(run, t, b) =>
      if t in s.spine.tools then Dropped(s, c)  // the UNIQUE constraint would raise
      else At(s.(spine := WithTool(s.spine, t, Started)), c, Owning(run, t, b))
    case Invoked(run, t, b, o) =>
      At(s.(spine := WithTool(s.spine, t, RowFor(b, o))), c, Closing(run, t, RowFor(b, o)))
    case Closing(run, t, row) => At(s.(locks := s.locks - {t}), c, AfterTool(run, t, row))
    case Moving(run, m) =>
      if !CanTransition(run.state, m.target) then Dropped(s, c)  // INVALID_TRANSITION would raise
      else if !CasWins(s.spine, run) then At(s, c, Refused(run))
      else
        var sp := Transitioned(s.spine, run, m, now);
        At(s.(spine := sp), c, if m.target == ESCALATED then Returned(sp.run) else Ready(sp.run))
    case Refused(run) => At(s, c, Rejecting(run, s.spine.run.state))
    case Rejecting(run, observed) =>
      At(s.(spine := WithEvent(s.spine, Rejection(CONTROL_REJECTED, observed, "STATE_VERSION_CONFLICT"))), c, Reloading(run))
    case Reloading(run) => At(s, c, Ready(s.spine.run))
    case _ => s
  }

  predicate CanInvoke(s: System, c: CallerId, o: Outcome) {
    c in s.callers && s.callers[c].Owning? && WellTyped(s.callers[c].tool, o)
  }

  function Apply(s: System, step: Step): System {
    match step
    case Join(c) => if c in s.callers then s else At(s, c, Ready(s.spine.run))
    case Advance(c, now) => if CanAdvance(s, c) then Advanced(s, c, now) else s
    case Invoke(c, o) =>
      if !CanInvoke(s, c, o) then s
      else
        var pc := s.callers[c];
        At(s, c, Invoked(pc.run, pc.tool, pc.bundle, o)).(calls := s.calls + [Call(pc.tool, pc.bundle)])
    case Crash(c) => Dropped(s, c)
    case Decide(r, stale) => s.(spine := ServiceReviewed(s.spine, r, stale))
    case LogRejection(kind, stale, code) =>
      if kind in {CONTROL_REJECTED, REVIEW_REJECTED, INTAKE_REJECTED}
      then s.(spine := WithEvent(s.spine, Rejection(kind, stale, code))) else s
  }

  function After(g: Config, run: seq<Step>): System {
    if run == [] then Start(g) else Apply(After(g, run[..|run| - 1]), run[|run| - 1])
  }

  // -------------------------------------------------- invariant of the rows

  function Rank(s: RunState): nat {
    match s
    case CREATED => 0
    case VALIDATING => 1
    case GATHERING_EVIDENCE => 2
    case QUALITY_CHECKS => 3
    case REASONING => 4
    case DRAFTING_RECOMMENDATION => 5
    case _ => 6
  }

  /** The furthest stage the run has been in. */
  function Reached(r: RunRow): int {
    if r.state == ESCALATED then r.version - 1 else Rank(r.state)
  }

  /** State and version determine each other, except that a run may be escalated from several stages. */
  ghost predicate RowShape(r: RunRow) {
    && (|| ((Working(r.state) || r.state == AWAITING_HUMAN) && r.version == Rank(r.state))
        || (r.state == ESCALATED && 3 <= r.version <= 5)
        || (r.state == CLOSED && r.version == 8))
    && (r.draft.Some? <==> Reached(r) >= 6)
    && (r.draft.Some? ==> r.draftHash == Some(DraftHash(r.draft.value)) && r.reviewExpiresAt.Some?)
  }

  predicate Has(tools: map<Tool, ToolRow>, t: Tool) {
    t in tools && tools[t].Completed?
  }

  predicate AllGathered(tools: map<Tool, ToolRow>) {
    Has(tools, T1_INVENTORY) && Has(tools, T2_SALES_DEMAND) && Has(tools, T3_SUPPLIER)
  }

  ghost predicate TypedRows(tools: map<Tool, ToolRow>) {
    forall t | t in tools && tools[t].Completed? ::
      if t == REASONING_TOOL then tools[t].result.Reasoned? else tools[t].result.Item? && tools[t].result.item.tool == t
  }

  ghost predicate StageInv(r: RunRow, tools: map<Tool, ToolRow>) {
    && (Reached(r) >= 3 ==> AllGathered(tools))
    && (Reached(r) >= 4 ==> ValidateBundle(ListEvidence(tools), r.asOf) == None)
    && (Reached(r) >= 5 ==> Has(tools, REASONING_TOOL))
    && (REASONING_TOOL in tools ==> Reached(r) >= 4)
    && (Has(tools, REASONING_TOOL) && tools[REASONING_TOOL].result.Reasoned? ==>
          ValidCitations(tools[REASONING_TOOL].result.result, IdsOf(ListEvidence(tools))))
    && (Reached(r) >= 6 ==>
          tools[REASONING_TOOL].result.Reasoned? && r.draft == Some(tools[REASONING_TOOL].result.result))
  }

  ghost predicate SpineInv(sp: Spine) {
    && RowShape(sp.run)
    && TypedRows(sp.tools)
    && StageInv(sp.run, sp.tools)
    && (sp.decision.Some? <==> sp.run.state == CLOSED)
  }

  /** What every step does to the rows. */
  ghost predicate Rely(a: Spine, b: Spine) {
    && RunForward(a.run, b.run)
    && (forall t | t in a.tools :: t in b.tools && (a.tools[t] != Started ==> b.tools[t] == a.tools[t]))
  }

  /** `seen` is the run as it is, or a strictly earlier working (or drafted) version of it. */
  ghost predicate RunForward(seen: RunRow, run: RunRow) {
    && run.asOf == seen.asOf && run.shadow == seen.shadow && run.assignedReviewer == seen.assignedReviewer
    && (|| run == seen
        || (&& seen.version < run.version
            && (Working(seen.state) || seen.state == AWAITING_HUMAN)
            && Rank(seen.state) <= Reached(run)))
  }

  // ------------------------------------------------ invariant of the callers

  function StageOf(t: Tool): RunState {
    if t == REASONING_TOOL then REASONING else GATHERING_EVIDENCE
  }

  /** The tools that come before `t` in its stage are done, and reasoning is handed exactly the stored evidence. */
  ghost predicate ToolReady(sp: Spine, t: Tool, bundle: seq<Evidence>) {
    match t
    case T1_INVENTORY => bundle == []
    case T2_SALES_DEMAND => bundle == [] && Has(sp.tools, T1_INVENTORY)
    case T3_SUPPLIER => bundle == [] && Has(sp.tools, T1_INVENTORY) && Has(sp.tools, T2_SALES_DEMAND)
    case REASONING_TOOL => AllGathered(sp.tools) && bundle == ListEvidence(sp.tools)
  }

  ghost predicate MoveJustified(sp: Spine, seen: RunRow, m: Move) {
    && Working(seen.state)
    && CanTransition(seen.state, m.target)
    && m.target != FAILED_AUTHZ
    && (m.target == AWAITING_HUMAN <==> m.draft.Some?)
    && (m.eventType == RUN_ESCALATED <==> m.target == ESCALATED)
    && m.eventType !in {RUN_CREATED, CONTROL_REJECTED, REVIEW_REJECTED, INTAKE_REJECTED}
    && (m.target == ESCALATED ==> Rank(seen.state) in {2, 3, 4})
    && (m.target == QUALITY_CHECKS ==> AllGathered(sp.tools))
    && (m.target == REASONING ==> ValidateBundle(ListEvidence(sp.tools), seen.asOf) == None)
    && (m.target == DRAFTING_RECOMMENDATION ==> Has(sp.tools, REASONING_TOOL))
    && (m.target == AWAITING_HUMAN ==> Has(sp.tools, REASONING_TOOL) && sp.tools[REASONING_TOOL].result == Reasoned(m.draft.value))
  }

  /** What a caller may rely on at each point; stable while others act, because its own lock protects its row. */
  ghost predicate PcInv(sp: Spine, pc: Pc) {
    && RowShape(pc.run)
    && RunForward(pc.run, sp.run)
    && match pc
       case Ready(_) => true
       case Wants(run, t, b) => run.state == StageOf(t) && ToolReady(sp, t, b)
       case Holding(run, t, b) => run.state == StageOf(t) && ToolReady(sp, t, b)
       case Vacant(run, t, b) => run.state == StageOf(t) && ToolReady(sp, t, b) && t !in sp.tools
       case Owning(run, t, b) => run.state == StageOf(t) && ToolReady(sp, t, b) && t in sp.tools && sp.tools[t] == Started
       case Invoked(run, t, b, o) =>
         run.state == StageOf(t) && ToolReady(sp, t, b) && t in sp.tools && sp.tools[t] == Started && WellTyped(t, o)
       case Closing(run, t, row) =>
         run.state == StageOf(t) && ToolReadyBefore(sp, t) && t in sp.tools && sp.tools[t] == row && row != Started
       case Moving(run, m) => MoveJustified(sp, run, m)
       case Refused(run) => run.version < sp.run.version
       case Rejecting(run, _) => run.version < sp.run.version
       case Reloading(run) => run.version < sp.run.version
       case Returned(run) => !Working(run.state)
  }

  ghost predicate ToolReadyBefore(sp: Spine, t: Tool) {
    ToolReady(sp, t, if t == REASONING_TOOL then ListEvidence(sp.tools) else [])
  }

  lemma EvidenceStays(a: map<Tool, ToolRow>, b: map<Tool, ToolRow>)
    requires AllGathered(a)
    requires forall t | t in a :: t in b && (a[t] != Started ==> b[t] == a[t])
    ensures AllGathered(b) && ListEvidence(b) == ListEvidence(a)
  {
  }

  lemma PcStable(a: Spine, b: Spine, pc: Pc)
    requires PcInv(a, pc) && Rely(a, b)
    requires HeldTool(pc).Some? ==>
               var t := HeldTool(pc).value;
               (t in a.tools <==> t in b.tools) && (t in a.tools ==> b.tools[t] == a.tools[t])
    requires SpineInv(a)
    ensures PcInv(b, pc)
  {
    RunForwardIsTransitive(pc.run, a.run, b.run);
    match pc
    case Moving(run, m) =>
      MoveStaysJustified(a, b, run, m);
      hide MoveJustified, SpineInv;
    case Ready(_) =>
    case Refused(_) =>
    case Rejecting(_, _) =>
    case Reloading(_) =>
    case Returned(_) =>
    case Closing(_, t, _) =>
      hide SpineInv, ToolReadyBefore;
      ToolsBeforeStayReady(a, b, t);
    case _ =>
      ToolStaysReady(a, b, pc.tool, pc.bundle);
      hide SpineInv, ToolReady;
  }

  lemma RunForwardIsTransitive(a: RunRow, b: RunRow, c: RunRow)
    requires RunForward(a, b) && RunForward(b, c)
    ensures RunForward(a, c)
  {
  }

  lemma ToolStaysReady(a: Spine, b: Spine, t: Tool, bundle: seq<Evidence>)
    requires ToolReady(a, t, bundle) && Rely(a, b)
    ensures ToolReady(b, t, bundle)
  {
    if AllGathered(a.tools) {
      EvidenceStays(a.tools, b.tools);
    }
    hide ListEvidence, RunForward;
  }

  lemma ToolsBeforeStayReady(a: Spine, b: Spine, t: Tool)
    requires ToolReadyBefore(a, t) && Rely(a, b)
    ensures ToolReadyBefore(b, t)
  {
    if AllGathered(a.tools) {
      EvidenceStays(a.tools, b.tools);
    }
    hide ListEvidence, RunForward;
  }

  lemma MoveStaysJustified(a: Spine, b: Spine, seen: RunRow, m: Move)
    requires SpineInv(a) && RunForward(seen, a.run) && MoveJustified(a, seen, m) && Rely(a, b)
    ensures MoveJustified(b, seen, m)
  {
    if AllGathered(a.tools) {
      EvidenceStays(a.tools, b.tools);
    }
    hide ListEvidence, ValidateBundle, TypedRows;
  }
}
