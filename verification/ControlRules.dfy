/**
 What the control loop is to do at each stage, stated on the stored rows alone: the move a stage calls for, why a run
 may be escalated and under which code, and the row that an external call leaves behind.
 */
module ControlRules {
  import opened Wrappers
  import opened Evidence
  import opened ControlModel
  import opened ControlSystem

  /** The row is not a result: the call failed with `code`, or whoever began it never finished. */
  ghost predicate Unfinished(t: Tool, row: ToolRow, code: string) {
    match row
    case Completed(_) => false
    case Failed(c) => code == c
    case Started => code == if t == REASONING_TOOL then "REASONING_RETRY_FORBIDDEN" else "EVIDENCE_RETRY_FORBIDDEN"
  }

  ghost predicate UnfinishedIn(tools: map<Tool, ToolRow>, t: Tool, code: string) {
    t in tools && Unfinished(t, tools[t], code)
  }

  /** The first of the three evidence tools, in order, that has no result gives the code. */
  ghost predicate GatheringStops(tools: map<Tool, ToolRow>, code: string) {
    || UnfinishedIn(tools, T1_INVENTORY, code)
    || (Has(tools, T1_INVENTORY) && UnfinishedIn(tools, T2_SALES_DEMAND, code))
    || (Has(tools, T1_INVENTORY) && Has(tools, T2_SALES_DEMAND) && UnfinishedIn(tools, T3_SUPPLIER, code))
  }

  /** `t` is that tool, and `row` is what was read of it. */
  ghost predicate StopsAt(tools: map<Tool, ToolRow>, t: Tool, row: ToolRow, code: string) {
    && Unfinished(t, row, code)
    && (t in {T2_SALES_DEMAND, T3_SUPPLIER} ==> Has(tools, T1_INVENTORY))
    && (t == T3_SUPPLIER ==> Has(tools, T2_SALES_DEMAND))
  }

  /** Every citation, of the root cause and of the draft, is the id of an item of the bundle. */
  ghost predicate Cites(r: ReasoningResult, bundle: seq<Evidence>) {
    && (forall c | c in r.rootCitations :: exists e :: e in bundle && e.evidenceId == c)
    && (forall c | c in r.draftCitations :: exists e :: e in bundle && e.evidenceId == c)
  }

  lemma CitesIff(r: ReasoningResult, bundle: seq<Evidence>)
    ensures ValidCitations(r, IdsOf(bundle)) <==> Cites(r, bundle)
  {
    assert forall c :: c in r.rootCitations + r.draftCitations <==> c in r.rootCitations || c in r.draftCitations;
    assert forall c :: c in IdsOf(bundle) <==> exists e :: e in bundle && e.evidenceId == c;
  }

  ghost predicate Escalates(m: Move, code: string) {
    m == Move(ESCALATED, RUN_ESCALATED, code, None)
  }

  /** The one move that the stage of `run` calls for, given the tool rows. */
  ghost predicate CalledFor(tools: map<Tool, ToolRow>, run: RunRow, m: Move) {
    match run.state
    case CREATED => m == Move(VALIDATING, VALIDATION_STARTED, "", None)
    case VALIDATING => m == Move(GATHERING_EVIDENCE, EVIDENCE_GATHERING_STARTED, "", None)
    case GATHERING_EVIDENCE =>
      if AllGathered(tools) then m == Move(QUALITY_CHECKS, EVIDENCE_GATHERED, "", None)
      else Escalates(m, m.code) && GatheringStops(tools, m.code)
    case QUALITY_CHECKS =>
      if Accepted(ListEvidence(tools), run.asOf) then m == Move(REASONING, QUALITY_CHECKS_PASSED, "", None)
      else Escalates(m, m.code) && RefusedWith(ListEvidence(tools), run.asOf, m.code)
    case REASONING =>
      if Has(tools, REASONING_TOOL) then m == Move(DRAFTING_RECOMMENDATION, REASONING_COMPLETED, "", None)
      else Escalates(m, m.code) && UnfinishedIn(tools, REASONING_TOOL, m.code)
    case DRAFTING_RECOMMENDATION =>
      if !Has(tools, REASONING_TOOL) then Escalates(m, "REASONING_RESULT_UNAVAILABLE")
      else if !tools[REASONING_TOOL].result.Reasoned? || !Cites(tools[REASONING_TOOL].result.result, ListEvidence(tools))
      then Escalates(m, "INVALID_REASONING_OUTPUT")
      else m == Move(AWAITING_HUMAN, DRAFT_READY, "", Some(tools[REASONING_TOOL].result.result))
    case _ => false
  }

  /** The row an external call leaves: its failure, its result, or a failure if the result cites what it was not given. */
  ghost predicate Leaves(o: Outcome, bundle: seq<Evidence>, row: ToolRow) {
    match o
    case Fails(code) => row == Failed(code)
    case Yields(x) =>
      if x.Reasoned? && !Cites(x.result, bundle) then row == Failed("INVALID_REASONING_OUTPUT") else row == Completed(x)
  }

  lemma RowForLeaves(o: Outcome, bundle: seq<Evidence>)
    ensures Leaves(o, bundle, RowFor(bundle, o)) && RowFor(bundle, o) != Started
  {
    if o.Yields? && o.result.Reasoned? {
      CitesIff(o.result.result, bundle);
    }
    hide Cites, ValidCitations;
  }

  lemma RetryCodeIs(t: Tool, row: ToolRow)
    requires !row.Completed?
    ensures forall code :: Unfinished(t, row, code) <==> code == RetryCode(t, row)
  {
  }

  /** No stage calls for two moves. */
  lemma CalledForIsUnique(tools: map<Tool, ToolRow>, run: RunRow, m: Move, n: Move)
    requires CalledFor(tools, run, m) && CalledFor(tools, run, n)
    ensures m == n
  {
    hide Accepted, RefusedWith, ListEvidence, Cites;
    if run.state == QUALITY_CHECKS && !Accepted(ListEvidence(tools), run.asOf) {
      BundleRefusedIff(ListEvidence(tools), run.asOf, m.code);
      BundleRefusedIff(ListEvidence(tools), run.asOf, n.code);
    }
  }

  /** A caller of the interleaved system that has dispatched on its record is about to make the move called for. */
  lemma DispatchIsCalledFor(sp: Spine, run: RunRow)
    requires Dispatch(sp, run).Moving?
    ensures Dispatch(sp, run).run == run && CalledFor(sp.tools, run, Dispatch(sp, run).move)
  {
    hide Accepted, RefusedWith, Cites, ValidCitations, ValidateBundle, ListEvidence, IdsOf;
    var bundle := ListEvidence(sp.tools);
    if run.state == QUALITY_CHECKS {
      BundleAcceptedIff(bundle, run.asOf);
      if ValidateBundle(bundle, run.asOf).Some? {
        BundleRefusedIff(bundle, run.asOf, ValidateBundle(bundle, run.asOf).value);
      }
    } else if run.state == DRAFTING_RECOMMENDATION && Has(sp.tools, REASONING_TOOL) && sp.tools[REASONING_TOOL].result.Reasoned? {
      CitesIff(sp.tools[REASONING_TOOL].result.result, bundle);
    }
  }

  /** So is one that has read or completed the row of a tool. */
  lemma AfterToolIsCalledFor(sp: Spine, run: RunRow, t: Tool)
    requires run.state == StageOf(t) && ToolReadyBefore(sp, t) && t in sp.tools
    ensures var pc := AfterTool(run, t, sp.tools[t]);
            pc.Moving? ==> pc.run == run && CalledFor(sp.tools, run, pc.move)
  {
    hide ListEvidence;
    if !sp.tools[t].Completed? {
      RetryCodeIs(t, sp.tools[t]);
    }
  }
}
