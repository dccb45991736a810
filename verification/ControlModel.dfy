/** The frozen transition table and the rows of one investigation run, with its atomic transactions. */
module ControlModel {
  import opened Wrappers
  import opened Evidence

  datatype RunState =
    | CREATED | VALIDATING | GATHERING_EVIDENCE | QUALITY_CHECKS | REASONING | DRAFTING_RECOMMENDATION
    | AWAITING_HUMAN | APPROVED | EDITED_AND_APPROVED | REJECTED | ESCALATED | CLOSED | FAILED_AUTHZ

  function Transitions(s: RunState): set<RunState> {
    match s
    case CREATED => {VALIDATING, FAILED_AUTHZ}
    case VALIDATING => {GATHERING_EVIDENCE, ESCALATED, FAILED_AUTHZ}
    case GATHERING_EVIDENCE => {QUALITY_CHECKS, ESCALATED}
    case QUALITY_CHECKS => {REASONING, ESCALATED}
    case REASONING => {DRAFTING_RECOMMENDATION, ESCALATED}
    case DRAFTING_RECOMMENDATION => {AWAITING_HUMAN, ESCALATED}
    case AWAITING_HUMAN => {APPROVED, EDITED_AND_APPROVED, REJECTED, ESCALATED}
    case APPROVED => {CLOSED}
    case EDITED_AND_APPROVED => {CLOSED}
    case REJECTED => {CLOSED}
    case ESCALATED => {CLOSED}
    case CLOSED => {}
    case FAILED_AUTHZ => {}
  }

  predicate CanTransition(current: RunState, target: RunState) {
    target in Transitions(current)
  }

  /** The digest of a draft, injective. */
  datatype DraftHash = DraftHash(draft: ReasoningResult)

  const REVIEW_POLICY: Time := 24.0 * 3600.0

  datatype RunRow = RunRow(
    state: RunState,
    version: nat,
    draft: Option<ReasoningResult>,
    draftHash: Option<DraftHash>,
    reviewExpiresAt: Option<Time>,
    shadow: bool,
    assignedReviewer: string,
    asOf: Time)

  datatype ToolResult = Item(item: Evidence) | Reasoned(result: ReasoningResult)

  datatype ToolRow = Started | Completed(result: ToolResult) | Failed(code: string)

  datatype EventType =
    | RUN_CREATED | VALIDATION_STARTED | EVIDENCE_GATHERING_STARTED | EVIDENCE_GATHERED | QUALITY_CHECKS_PASSED
    | REASONING_COMPLETED | DRAFT_READY | RUN_ESCALATED | REVIEW_DECIDED | RUN_CLOSED
    | CONTROL_REJECTED | REVIEW_REJECTED | INTAKE_REJECTED

  datatype Event = Event(eventType: EventType, fromState: Option<RunState>, toState: Option<RunState>, code: string)

  datatype Action = APPROVE | EDIT_APPROVE | REJECT | ESCALATE

  datatype Decision = Decision(
    action: Action, reviewer: string, draftHash: DraftHash, edited: Option<ReasoningResult>, decidedAt: Time)

  /** One run's rows: the run itself, its tool invocations (UNIQUE per tool), audit log and decision (UNIQUE). */
  datatype Spine = Spine(
    run: RunRow,
    tools: map<Tool, ToolRow>,
    events: seq<Event>,
    decision: Option<Decision>)

  /** The rows that `begin_intake` inserts. */
  function Created(shadow: bool, reviewer: string, asOf: Time): Spine {
    Spine(RunRow(CREATED, 0, None, None, None, shadow, reviewer, asOf),
          map[],
          [Event(RUN_CREATED, None, Some(CREATED), "")],
          None)
  }

  // ------------------------------------------------------------ transitions

  /** A move that a caller wants to make from its own, possibly stale, record of the run. */
  datatype Move = Move(target: RunState, eventType: EventType, code: string, draft: Option<ReasoningResult>)

  function MovedRow(row: RunRow, m: Move, now: Time): RunRow {
    if m.draft.Some? then
      row.(state := m.target, version := row.version + 1, draft := m.draft,
           draftHash := Some(DraftHash(m.draft.value)), reviewExpiresAt := Some(now + REVIEW_POLICY))
    else row.(state := m.target, version := row.version + 1)
  }

  /** `transition` and `set_draft_and_transition`: a compare-and-set on state and version, with its event. */
  predicate CasWins(sp: Spine, seen: RunRow) {
    sp.run.state == seen.state && sp.run.version == seen.version
  }

  function Transitioned(sp: Spine, seen: RunRow, m: Move, now: Time): Spine {
    sp.(run := MovedRow(sp.run, m, now),
        events := sp.events + [Event(m.eventType, Some(seen.state), Some(m.target), m.code)])
  }

  function Rejection(kind: EventType, state: RunState, code: string): Event {
    Event(kind, Some(state), Some(state), code)
  }

  function WithEvent(sp: Spine, e: Event): Spine {
    sp.(events := sp.events + [e])
  }

  // ------------------------------------------------------------------ tools

  /** `list_evidence`: the completed evidence items, by tool name. */
  function ListEvidence(tools: map<Tool, ToolRow>): seq<Evidence> {
    ItemOf(tools, T1_INVENTORY) + ItemOf(tools, T2_SALES_DEMAND) + ItemOf(tools, T3_SUPPLIER)
  }

  function ItemOf(tools: map<Tool, ToolRow>, t: Tool): seq<Evidence> {
    if t in tools && tools[t].Completed? && tools[t].result.Item? then [tools[t].result.item] else []
  }

  function WithTool(sp: Spine, t: Tool, row: ToolRow): Spine {
    sp.(tools := sp.tools[t := row])
  }

  // ----------------------------------------------------------------- review

  datatype Review = Review(
    principal: string, hasRole: bool, action: Action, submitted: DraftHash,
    edited: Option<ReasoningResult>, now: Time)

  function ReviewTarget(a: Action): RunState {
    match a
    case APPROVE => APPROVED
    case EDIT_APPROVE => EDITED_AND_APPROVED
    case REJECT => REJECTED
    case ESCALATE => ESCALATED
  }

  /** The checks of `record_review` on the locked row, in order. */
  function ReviewError(sp: Spine, r: Review): Option<string> {
    if sp.run.shadow then Some("SHADOW_REVIEW_FORBIDDEN")
    else if sp.decision.Some? || sp.run.state != AWAITING_HUMAN then Some("RUN_ALREADY_DECIDED")
    else if r.principal != sp.run.assignedReviewer then Some("WRONG_REVIEWER")
    else if Some(r.submitted) != sp.run.draftHash then Some("STALE_APPROVAL_TARGET")
    else if sp.run.reviewExpiresAt.None? || r.now > sp.run.reviewExpiresAt.value then Some("REVIEW_EXPIRED")
    else None
  }

  /** One locked transaction: either a rejection event, or the decision and both transitions to CLOSED. */
  function Reviewed(sp: Spine, r: Review): Spine {
    var error := ReviewError(sp, r);
    if error.Some? then WithEvent(sp, Rejection(REVIEW_REJECTED, sp.run.state, error.value))
    else
      var target := ReviewTarget(r.action);
      Spine(sp.run.(state := CLOSED, version := sp.run.version + 2),
            sp.tools,
            sp.events + [Event(REVIEW_DECIDED, Some(AWAITING_HUMAN), Some(target), ""),
                         Event(RUN_CLOSED, Some(target), Some(CLOSED), "")],
            Some(Decision(r.action, r.principal, r.submitted, r.edited, r.now)))
  }

  /** `InvestigationService.review`: role and edited payload are checked before the locked transaction. */
  function ServiceReviewed(sp: Spine, r: Review, stale: RunState): Spine {
    if !r.hasRole then WithEvent(sp, Rejection(CONTROL_REJECTED, stale, "REVIEWER_ROLE_REQUIRED"))
    else if r.edited.Some? && !ValidCitations(r.edited.value, IdsOf(ListEvidence(sp.tools)))
    then WithEvent(sp, Rejection(CONTROL_REJECTED, stale, "INVALID_EDITED_PAYLOAD"))
    else Reviewed(sp, r)
  }
}
