/** What the audit log, the review and the tool calls show in every reachable state of the control spine. */
module ControlTheorems {
  import opened Wrappers
  import opened Evidence
  import opened ControlModel
  import opened ControlSystem
  import opened ControlInvariant
  import opened ControlRules

  function Before(run: seq<Step>): seq<Step>
    requires run != []
  {
    run[..|run| - 1]
  }

  function Last(run: seq<Step>): Step
    requires run != []
  {
    run[|run| - 1]
  }

  // ---------------------------------------------------------------- audit

  /** Only an event that names a new state is a transition; a rejection repeats whatever state it once read. */
  predicate Genuine(e: Event) {
    e.toState.Some? && e.toState != e.fromState
  }

  function GenuineOf(events: seq<Event>): seq<Event> {
    if events == [] then []
    else GenuineOf(events[..|events| - 1]) + if Genuine(events[|events| - 1]) then [events[|events| - 1]] else []
  }

  /** The fold of `audit`. */
  function Replayed(events: seq<Event>): Option<RunState> {
    if events == [] then None
    else if Genuine(events[|events| - 1]) then events[|events| - 1].toState
    else Replayed(events[..|events| - 1])
  }

  /** The codes of the run_escalated events, in order. */
  function EscalationCodes(events: seq<Event>): seq<string> {
    if events == [] then []
    else
      var last := events[|events| - 1];
      EscalationCodes(events[..|events| - 1]) + if last.eventType == RUN_ESCALATED then [last.code] else []
  }

  lemma CodesAppend(events: seq<Event>, e: Event)
    ensures EscalationCodes(events + [e]) == EscalationCodes(events) + if e.eventType == RUN_ESCALATED then [e.code] else []
  {
    assert (events + [e])[..|events|] == events;
  }

  /** A path in TRANSITIONS from created to `state`. */
  ghost predicate IsPath(gs: seq<Event>, state: RunState) {
    && gs != []
    && gs[0].fromState == None && gs[0].toState == Some(CREATED)
    && (forall i | 1 <= i < |gs| ::
          && gs[i].fromState.Some? && gs[i].toState.Some?
          && gs[i].fromState == gs[i - 1].toState
          && CanTransition(gs[i].fromState.value, gs[i].toState.value))
    && gs[|gs| - 1].toState == Some(state)
  }

  ghost predicate AuditInv(sp: Spine) {
    && IsPath(GenuineOf(sp.events), sp.run.state)
    && |GenuineOf(sp.events)| == sp.run.version + 1
    && Replayed(sp.events) == Some(sp.run.state)
  }

  lemma AppendEvent(events: seq<Event>, e: Event)
    ensures GenuineOf(events + [e]) == GenuineOf(events) + if Genuine(e) then [e] else []
    ensures Replayed(events + [e]) == if Genuine(e) then e.toState else Replayed(events)
  {
    assert (events + [e])[..|events|] == events;
  }

  /** One genuine event extends the path; any number of rejections leave it alone. */
  lemma TransitionExtendsPath(events: seq<Event>, from: RunState, target: RunState, e: Event)
    requires IsPath(GenuineOf(events), from) && CanTransition(from, target)
    requires e.fromState == Some(from) && e.toState == Some(target)
    ensures IsPath(GenuineOf(events + [e]), target) && Replayed(events + [e]) == Some(target)
    ensures |GenuineOf(events + [e])| == |GenuineOf(events)| + 1
  {
    AppendEvent(events, e);
    assert from != target;
    var gs := GenuineOf(events);
    hide GenuineOf, Replayed;
    PathGrows(gs, from, target, e);
  }

  lemma PathGrows(gs: seq<Event>, from: RunState, target: RunState, e: Event)
    requires IsPath(gs, from) && CanTransition(from, target)
    requires e.fromState == Some(from) && e.toState == Some(target)
    ensures IsPath(gs + [e], target)
  {
    hide CanTransition;
  }

  /**
   The transition table allows no shortcut: whatever path leads to a working state or to the reviewer, it has gone
   through every stage before, one by one; and nothing is closed that was neither escalated nor put to the reviewer.
   */
  lemma {:induction false} PathsAreStaged(gs: seq<Event>, state: RunState)
    requires IsPath(gs, state)
    ensures Working(state) || state == AWAITING_HUMAN ==> |gs| == Rank(state) + 1
    ensures state == FAILED_AUTHZ ==> |gs| <= 3
    ensures state in {APPROVED, EDITED_AND_APPROVED, REJECTED} ==> |gs| == 8
    ensures state == ESCALATED ==> 3 <= |gs| <= 8
    ensures state == CLOSED ==> 4 <= |gs| <= 9 && exists i :: 0 <= i < |gs| - 1 && Decisive(gs[i])
  {
    if |gs| > 1 {
      var before := gs[..|gs| - 1];
      var from := gs[|gs| - 1].fromState.value;
      assert gs[|gs| - 2].toState == Some(from);
      assert IsPath(before, from);
      PathsAreStaged(before, from);
      assert CanTransition(from, state);
      if state == CLOSED {
        assert Decisive(gs[|gs| - 2]);
      }
    }
  }

  /** The event puts the run before its reviewer's decision or out of the reviewer's way. */
  predicate Decisive(e: Event) {
    e.toState.Some? && e.toState.value in {APPROVED, EDITED_AND_APPROVED, REJECTED, ESCALATED}
  }

  lemma RejectionKeepsPath(sp: Spine, kind: EventType, stale: RunState, code: string)
    requires AuditInv(sp)
    ensures AuditInv(WithEvent(sp, Rejection(kind, stale, code)))
  {
    AppendEvent(sp.events, Rejection(kind, stale, code));
    assert GenuineOf(sp.events) + [] == GenuineOf(sp.events);
  }

  lemma ReviewKeepsPath(sp: Spine, r: Review, stale: RunState)
    requires AuditInv(sp)
    ensures AuditInv(ServiceReviewed(sp, r, stale))
  {
    hide AuditInv;
    var after := ServiceReviewed(sp, r, stale);
    if after.events == sp.events + [Rejection(CONTROL_REJECTED, stale, "REVIEWER_ROLE_REQUIRED")] {
      RejectionKeepsPath(sp, CONTROL_REJECTED, stale, "REVIEWER_ROLE_REQUIRED");
    } else if after.events == sp.events + [Rejection(CONTROL_REJECTED, stale, "INVALID_EDITED_PAYLOAD")] {
      RejectionKeepsPath(sp, CONTROL_REJECTED, stale, "INVALID_EDITED_PAYLOAD");
    } else if ReviewError(sp, r).Some? {
      RejectionKeepsPath(sp, REVIEW_REJECTED, sp.run.state, ReviewError(sp, r).value);
    } else {
      ClosureKeepsPath(sp, r);
    }
  }

  lemma ClosureKeepsPath(sp: Spine, r: Review)
    requires AuditInv(sp) && ReviewError(sp, r) == None
    ensures AuditInv(Reviewed(sp, r))
  {
    hide IsPath;
    var target := ReviewTarget(r.action);
    var decided := Event(REVIEW_DECIDED, Some(AWAITING_HUMAN), Some(target), "");
    var closed := Event(RUN_CLOSED, Some(target), Some(CLOSED), "");
    TransitionExtendsPath(sp.events, AWAITING_HUMAN, target, decided);
    TransitionExtendsPath(sp.events + [decided], target, CLOSED, closed);
    assert sp.events + [decided, closed] == (sp.events + [decided]) + [closed];
    hide GenuineOf, Replayed;
  }

  lemma MoveKeepsAudit(sp: Spine, run: RunRow, m: Move, now: Time)
    requires SpineInv(sp) && PcInv(sp, Moving(run, m)) && CasWins(sp, run) && AuditInv(sp)
    ensures AuditInv(Transitioned(sp, run, m, now))
  {
    hide SpineInv, PcInv, IsPath, GenuineOf, Replayed, CanTransition;
    MoveStep(sp, run, m, now);
    WinnersAreCurrent(sp, run, m);
    TransitionExtendsPath(sp.events, run.state, m.target, Event(m.eventType, Some(run.state), Some(m.target), m.code));
  }

  lemma WinnersAreCurrent(sp: Spine, run: RunRow, m: Move)
    requires SpineInv(sp) && PcInv(sp, Moving(run, m)) && CasWins(sp, run)
    ensures run == sp.run
  {
    hide SpineInv, RowShape, MoveJustified;
  }

  lemma ToolsAreNotAudited(sp: Spine, t: Tool, row: ToolRow)
    requires AuditInv(sp)
    ensures AuditInv(WithTool(sp, t, row))
  {
    hide IsPath, GenuineOf, Replayed;
  }

  lemma StepKeepsAudit(s: System, step: Step)
    requires Inv(s) && AuditInv(s.spine)
    ensures AuditInv(Apply(s, step).spine)
  {
    hide SpineInv, PcInv, AuditInv, Dispatch, AfterTool, CallInv, LockInv, Transitioned, ServiceReviewed, CanTransition;
    match step
    case Advance(c, now) =>
      if CanAdvance(s, c) {
        assert PcInv(s.spine, s.callers[c]);
        match s.callers[c]
        case Moving(run, m) =>
          if CasWins(s.spine, run) {
            MoveKeepsAudit(s.spine, run, m, now);
          }
        case Vacant(_, t, _) => ToolsAreNotAudited(s.spine, t, Started);
        case Invoked(_, t, b, o) => ToolsAreNotAudited(s.spine, t, RowFor(b, o));
        case Rejecting(run, observed) =>
          RejectionKeepsPath(s.spine, CONTROL_REJECTED, observed, "STATE_VERSION_CONFLICT");
        case _ =>
      }
    case Decide(r, stale) => ReviewKeepsPath(s.spine, r, stale);
    case LogRejection(kind, stale, code) => RejectionKeepsPath(s.spine, kind, stale, code);
    case _ =>
  }

  /**
   Audit replay: for every interleaving of transitions, reviews and rejections with arbitrarily stale states,
   the genuine events form a path from created to the current state, one step per version, and the fold of
   `audit` returns the state of the rows it read.
   */
  lemma {:induction false} AuditReplaysTheRun(g: Config, run: seq<Step>)
    ensures AuditInv(After(g, run).spine)
  {
    if run == [] {
      var events := Start(g).spine.events;
      assert events[..0] == [];
      AppendEvent([], events[0]);
      assert [] + [events[0]] == events;
    } else {
      AuditReplaysTheRun(g, Before(run));
      RunKeepsInv(g, Before(run));
      StepKeepsAudit(After(g, Before(run)), Last(run));
    }
  }

  lemma {:induction false} RunsMoveOn(g: Config, run: seq<Step>, more: seq<Step>)
    ensures Rely(After(g, run).spine, After(g, run + more).spine)
    decreases |more|
  {
    hide *;
    if more == [] {
      assert run + more == run;
      RelyIsReflexive(After(g, run).spine);
    } else {
      LastStep(g, run, more);
      RunsMoveOn(g, run, Before(more));
      RunKeepsInv(g, run + Before(more));
      RunKeepsInv(g, run);
      SpineHolds(After(g, run));
      SpineHolds(After(g, run + Before(more)));
      StepKeepsInv(After(g, run + Before(more)), Last(more));
      RelyTransitive(After(g, run).spine, After(g, run + Before(more)).spine, After(g, run + more).spine);
    }
  }

  lemma LastStep(g: Config, run: seq<Step>, more: seq<Step>)
    requires more != []
    ensures |Before(more)| < |more|
    ensures After(g, run + more) == Apply(After(g, run + Before(more)), Last(more))
  {
    assert (run + more)[..|run + more| - 1] == run + Before(more);
  }

  lemma SpineHolds(s: System)
    requires Inv(s)
    ensures SpineInv(s.spine)
  {
  }

  /** What a run is created with stays. */
  lemma ConfigStays(g: Config, run: seq<Step>)
    ensures var row := After(g, run).spine.run;
            row.shadow == g.shadow && row.assignedReviewer == g.reviewer && row.asOf == g.asOf
  {
    hide SpineInv;
    RunsMoveOn(g, [], run);
    assert [] + run == run;
  }

  lemma RelyTransitive(a: Spine, b: Spine, c: Spine)
    requires SpineInv(a) && SpineInv(b) && Rely(a, b) && Rely(b, c)
    ensures Rely(a, c)
  {
  }

  /**
   `audit` reads the events first and the run row in a later transaction. Its replayed state equals the current
   state it reports exactly when no transition committed in between.
   */
  lemma AuditAgreesIffNothingMoved(g: Config, run: seq<Step>, more: seq<Step>)
    ensures var events, current := After(g, run).spine.events, After(g, run + more).spine.run;
            Replayed(events) == Some(current.state) <==> current.version == After(g, run).spine.run.version
  {
    hide PcInv, CallInv, LockInv;
    AuditReplaysTheRun(g, run);
    RunsMoveOn(g, run, more);
    RunKeepsInv(g, run);
    RunKeepsInv(g, run + more);
    hide SpineInv, Rely, IsPath, Replayed, GenuineOf;
    VersionTellsState(After(g, run).spine, After(g, run + more).spine);
  }

  lemma VersionTellsState(a: Spine, b: Spine)
    requires SpineInv(a) && SpineInv(b) && Rely(a, b)
    ensures a.run.state == b.run.state <==> a.run.version == b.run.version
  {
    hide StageInv, TypedRows;
  }

  /** One transition between the two reads of `audit` is enough for them to disagree. */
  lemma AuditMayDisagree(g: Config, now: Time) returns (run: seq<Step>, more: seq<Step>)
    ensures run == [] && more == [Join(0), Advance(0, now), Advance(0, now)]
    ensures Replayed(After(g, run).spine.events) == Some(CREATED)
    ensures After(g, run + more).spine.run.state == VALIDATING
  {
    run, more := [], [Join(0), Advance(0, now), Advance(0, now)];
    var s1 := Apply(Start(g), Join(0));
    var s2 := Apply(s1, Advance(0, now));
    assert s2.callers[0] == Moving(s1.spine.run, Forward(VALIDATING, VALIDATION_STARTED));
    assert Apply(s2, Advance(0, now)).spine.run.state == VALIDATING;
    assert more[..0] == [] && more[..1] == [Join(0)] && more[..2] == [Join(0), Advance(0, now)];
    assert [Join(0)][..0] == [] && [Join(0), Advance(0, now)][..1] == [Join(0)];
    assert After(g, [Join(0)]) == s1 && After(g, [Join(0), Advance(0, now)]) == s2;
    assert run + more == more;
  }

  // --------------------------------------------------------------- review

  ghost predicate DecisionInv(sp: Spine) {
    sp.decision.Some? ==>
      && !sp.run.shadow
      && sp.decision.value.reviewer == sp.run.assignedReviewer
      && Some(sp.decision.value.draftHash) == sp.run.draftHash
      && sp.run.reviewExpiresAt.Some?
      && sp.decision.value.decidedAt <= sp.run.reviewExpiresAt.value
      && (sp.decision.value.edited.Some? ==>
            ValidCitations(sp.decision.value.edited.value, IdsOf(ListEvidence(sp.tools))))
  }

  lemma DecidedRunsRest(a: Spine, b: Spine)
    requires SpineInv(a) && DecisionInv(a) && Rely(a, b) && a.decision.Some? && b.decision == a.decision
    ensures DecisionInv(b)
  {
    assert b.run == a.run;
    EvidenceStays(a.tools, b.tools);
  }

  lemma ReviewKeepsDecision(sp: Spine, r: Review, stale: RunState)
    requires SpineInv(sp) && DecisionInv(sp)
    ensures DecisionInv(ServiceReviewed(sp, r, stale))
    ensures sp.decision.Some? ==> ServiceReviewed(sp, r, stale).decision == sp.decision
  {
    hide StageInv, TypedRows, RowShape;
  }

  lemma StepKeepsDecision(s: System, step: Step)
    requires Inv(s) && DecisionInv(s.spine)
    ensures DecisionInv(Apply(s, step).spine)
    ensures s.spine.decision.Some? ==> Apply(s, step).spine.decision == s.spine.decision
  {
    hide SpineInv, PcInv, CallInv, LockInv, Dispatch, AfterTool, Rely, ServiceReviewed;
    StepKeepsInv(s, step);
    if step.Decide? {
      ReviewKeepsDecision(s.spine, step.review, step.stale);
    } else {
      assert Apply(s, step).spine.decision == s.spine.decision;
      if s.spine.decision.Some? {
        DecidedRunsRest(s.spine, Apply(s, step).spine);
      }
    }
  }

  lemma {:induction false} RunKeepsDecision(g: Config, run: seq<Step>)
    ensures DecisionInv(After(g, run).spine)
  {
    hide PcInv, CallInv, LockInv, SpineInv;
    if run != [] {
      RunKeepsDecision(g, Before(run));
      RunKeepsInv(g, Before(run));
      StepKeepsDecision(After(g, Before(run)), Last(run));
    }
  }

  /**
   Review over all runs: the decision states are never visible between transactions; a run is closed iff it has
   a decision, which is by the assigned reviewer, on the stored draft hash and within expiry; shadow and
   escalated runs have none; closed means version 8.
   */
  lemma ReviewOverAllRuns(g: Config, run: seq<Step>)
    ensures var sp := After(g, run).spine;
            && sp.run.state !in {APPROVED, EDITED_AND_APPROVED, REJECTED, FAILED_AUTHZ}
            && (sp.run.state == CLOSED <==> sp.decision.Some?)
            && (sp.run.state == CLOSED ==> sp.run.version == 8 && !g.shadow && DecisionInv(sp))
            && (sp.run.state == ESCALATED ==> sp.decision == None)
  {
    hide *;
    RunKeepsInv(g, run);
    RunKeepsDecision(g, run);
    ConfigStays(g, run);
    SpineHolds(After(g, run));
    DecidedRows(After(g, run).spine);
  }

  lemma DecidedRows(sp: Spine)
    requires SpineInv(sp) && DecisionInv(sp)
    ensures sp.run.state !in {APPROVED, EDITED_AND_APPROVED, REJECTED, FAILED_AUTHZ}
    ensures sp.run.state == CLOSED <==> sp.decision.Some?
    ensures sp.run.state == CLOSED ==> sp.run.version == 8 && !sp.run.shadow
    ensures sp.run.state == ESCALATED ==> sp.decision == None
  {
    hide StageInv, TypedRows, Reached;
  }

  /** A fresh draft may be decided exactly by its assigned reviewer, on its own hash, for 24 hours. */
  lemma FreshDraftIsReviewableIff(sp: Spine, seen: RunRow, m: Move, now: Time, r: Review)
    requires SpineInv(sp) && PcInv(sp, Moving(seen, m)) && CasWins(sp, seen) && m.target == AWAITING_HUMAN
    ensures var after := Transitioned(sp, seen, m, now);
            ReviewError(after, r) == None
            <==> && !sp.run.shadow && r.principal == sp.run.assignedReviewer
                 && r.submitted == DraftHash(m.draft.value) && r.now <= now + 86400.0
    ensures ReviewError(sp, r).Some?
  {
    hide ToolReady, StageInv;
  }

  /** Why a review is refused, in every reachable state: one code for each case, in this order, and no other case. */
  lemma ReviewRefusals(g: Config, run: seq<Step>, r: Review)
    ensures var sp := After(g, run).spine;
            var error := ReviewError(sp, r);
            if g.shadow then error == Some("SHADOW_REVIEW_FORBIDDEN")
            else if sp.run.state != AWAITING_HUMAN then error == Some("RUN_ALREADY_DECIDED")
            else
              && sp.run.draft.Some? && sp.run.reviewExpiresAt.Some?
              && if r.principal != g.reviewer then error == Some("WRONG_REVIEWER")
                 else if r.submitted != DraftHash(sp.run.draft.value) then error == Some("STALE_APPROVAL_TARGET")
                 else if r.now > sp.run.reviewExpiresAt.value then error == Some("REVIEW_EXPIRED")
                 else error == None
  {
    RunKeepsInv(g, run);
    ConfigStays(g, run);
    SpineHolds(After(g, run));
    hide After;
    AwaitingRows(After(g, run).spine);
  }

  lemma AwaitingRows(sp: Spine)
    requires SpineInv(sp)
    ensures sp.run.state == AWAITING_HUMAN ==>
              && sp.decision == None && sp.run.draft.Some? && sp.run.reviewExpiresAt.Some?
              && sp.run.draftHash == Some(DraftHash(sp.run.draft.value))
  {
    hide StageInv, TypedRows;
  }

  /** At most one decision: once made it is the same in every continuation. */
  lemma {:induction false} DecisionIsFinal(g: Config, run: seq<Step>, more: seq<Step>)
    requires After(g, run).spine.decision.Some?
    ensures After(g, run + more).spine.decision == After(g, run).spine.decision
    decreases |more|
  {
    hide *;
    if more == [] {
      assert run + more == run;
    } else {
      LastStep(g, run, more);
      DecisionIsFinal(g, run, Before(more));
      RunKeepsInv(g, run + Before(more));
      RunKeepsDecision(g, run + Before(more));
      StepKeepsDecision(After(g, run + Before(more)), Last(more));
    }
  }

  // ---------------------------------------------------------------- tools

  /** Each tool is called at most once per run, whatever callers come, crash and return. */
  lemma ToolsAreCalledAtMostOnce(g: Config, run: seq<Step>, j: nat, k: nat)
    requires j < |After(g, run).calls| && k < |After(g, run).calls|
    requires After(g, run).calls[j].tool == After(g, run).calls[k].tool
    ensures j == k
  {
    hide PcInv, SpineInv, LockInv;
    RunKeepsInv(g, run);
  }

  /** A finished tool row never changes again. */
  lemma FinishedResultsAreFinal(g: Config, run: seq<Step>, more: seq<Step>, t: Tool)
    requires t in After(g, run).spine.tools && After(g, run).spine.tools[t] != Started
    ensures t in After(g, run + more).spine.tools
    ensures After(g, run + more).spine.tools[t] == After(g, run).spine.tools[t]
  {
    hide RunForward;
    RunsMoveOn(g, run, more);
  }

  /** Reasoning is called only on one sound item of each evidence tool. */
  lemma ReasoningIsGated(g: Config, run: seq<Step>, k: nat)
    requires k < |After(g, run).calls| && After(g, run).calls[k].tool == REASONING_TOOL
    ensures var b := After(g, run).calls[k].bundle;
            Accepted(b, g.asOf) && b == ListEvidence(After(g, run).spine.tools)
  {
    hide PcInv, SpineInv, LockInv, Accepted;
    RunKeepsInv(g, run);
    ConfigStays(g, run);
    BundleAcceptedIff(After(g, run).calls[k].bundle, g.asOf);
  }

  /** A run that awaits its reviewer has the draft that reasoning gave, which cites only its three accepted items. */
  lemma DraftsCiteAcceptedEvidence(g: Config, run: seq<Step>)
    requires After(g, run).spine.run.state in {AWAITING_HUMAN, CLOSED}
    ensures var sp := After(g, run).spine;
            && sp.run.draft.Some?
            && Has(sp.tools, REASONING_TOOL) && sp.tools[REASONING_TOOL].result == Reasoned(sp.run.draft.value)
            && Accepted(ListEvidence(sp.tools), g.asOf) && Cites(sp.run.draft.value, ListEvidence(sp.tools))
  {
    RunKeepsInv(g, run);
    ConfigStays(g, run);
    var sp := After(g, run).spine;
    SpineHolds(After(g, run));
    hide After, Accepted, Cites;
    DraftedRows(sp);
    BundleAcceptedIff(ListEvidence(sp.tools), g.asOf);
    CitesIff(sp.run.draft.value, ListEvidence(sp.tools));
  }

  lemma DraftedRows(sp: Spine)
    requires SpineInv(sp) && sp.run.state in {AWAITING_HUMAN, CLOSED}
    ensures sp.run.draft.Some? && Has(sp.tools, REASONING_TOOL) && sp.tools[REASONING_TOOL].result == Reasoned(sp.run.draft.value)
    ensures ValidateBundle(ListEvidence(sp.tools), sp.run.asOf) == None
    ensures ValidCitations(sp.run.draft.value, IdsOf(ListEvidence(sp.tools)))
  {
    hide ValidateBundle, ListEvidence, IdsOf, ValidCitations;
  }
}
