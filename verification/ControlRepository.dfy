/** The run's transactions in place, next to whatever other sessions commit between them. */
module ControlRepository {
  import opened Wrappers
  import opened Evidence
  import opened ControlModel
  import opened ControlSystem
  import opened ControlInvariant
  import opened ControlTheorems
  import opened ControlActs

  const INVALID_TRANSITION := "INVALID_TRANSITION"
  const STATE_VERSION_CONFLICT := "STATE_VERSION_CONFLICT"

  /** What others may have done: their steps, but nothing to the rows of the tools whose locks we hold. */
  ghost predicate Continues(a: Spine, b: Spine, held: set<Tool>) {
    && Rely(a, b)
    && a.events <= b.events
    && (forall t | t in held :: (t in a.tools <==> t in b.tools) && (t in a.tools ==> b.tools[t] == a.tools[t]))
  }

  lemma ContinuesIsTransitive(a: Spine, b: Spine, c: Spine, held: set<Tool>)
    requires SpineInv(a) && SpineInv(b) && Continues(a, b, held) && Continues(b, c, held)
    ensures Continues(a, c, held)
  {
    hide SpineInv, Rely;
    RelyTransitive(a, b, c);
  }

  lemma ContinuesKeeps(a: Spine, b: Spine, held: set<Tool>, pc: Pc)
    requires SpineInv(a) && Continues(a, b, held) && PcInv(a, pc)
    requires HeldTool(pc).Some? ==> HeldTool(pc).value in held
    ensures PcInv(b, pc)
  {
    hide SpineInv, Rely, PcInv;
    PcStable(a, b, pc);
  }

  /** A rejection was logged, with a state read some time before, and otherwise only others moved. */
  ghost predicate Logged(a: Spine, b: Spine, held: set<Tool>, code: string) {
    && SpineInv(b) && Continues(a, b, held)
    && |a.events| < |b.events|
    && exists stale :: b.events[|b.events| - 1] == Rejection(CONTROL_REJECTED, stale, code)
  }

  lemma ContinuesGoesOn(a: Spine, b: Spine, held: set<Tool>)
    requires Continues(a, b, held)
    ensures GoesOn(a, b)
  {
  }

  lemma LogContinues(a: Spine, b: Spine, held: set<Tool>, e: Event)
    requires SpineInv(a) && SpineInv(b) && Continues(a, b, held)
    ensures SpineInv(WithEvent(b, e)) && Continues(a, WithEvent(b, e), held)
  {
    hide SpineInv, Rely;
    EventMovesOn(b, e);
    RelyTransitive(a, b, WithEvent(b, e));
  }

  datatype LockAct = Took(tool: Tool) | Gave(tool: Tool)

  /** The advisory lock of one tool call, released once however often it is asked to. */
  class ToolClaim {
    const repository: Repository
    const tool: Tool
    var released: bool

    constructor (repository: Repository, tool: Tool)
      ensures this.repository == repository && this.tool == tool && !released
    {
      this.repository, this.tool, released := repository, tool, false;
    }

    method Release()
      modifies this, repository`held, repository`locks
      ensures released
      ensures repository.held == if old(released) then old(repository.held) else old(repository.held) - {tool}
      ensures repository.locks == old(repository.locks) + if old(released) then [] else [Gave(tool)]
    {
      if released {
        return;
      }
      released := true;
      repository.held, repository.locks := repository.held - {tool}, repository.locks + [Gave(tool)];
    }
  }

  class Repository {
    var spine: Spine
    var held: set<Tool>
    ghost var acts: seq<Act>  // what this session did, in order
    ghost var locks: seq<LockAct>  // what it did to the tool locks

    ghost predicate Valid()
      reads this
    {
      SpineInv(spine)
    }

    constructor (g: Config)
      ensures Valid() && spine == Start(g).spine && held == {} && acts == [] && locks == []
    {
      spine, held, acts, locks := Created(g.shadow, g.reviewer, g.asOf), {}, [], [];
    }

    /** A session on a run that is already there. */
    constructor At(sp: Spine)
      requires SpineInv(sp)
      ensures Valid() && spine == sp && held == {} && acts == [] && locks == []
    {
      spine, held, acts, locks := sp, {}, [], [];
    }

    /** Whatever other sessions commit between two of our transactions. */
    method OtherSessions()
      requires Valid()
      modifies this`spine
      ensures Valid() && Continues(old(spine), spine, held)
    {
      hide SpineInv;
    }

    method GetRun() returns (run: RunRow)
      ensures run == spine.run
    {
      run := spine.run;
    }

    method InsertEvent(e: Event)
      modifies this`spine
      ensures spine == WithEvent(old(spine), e)
    {
      spine := spine.(events := spine.events + [e]);
    }

    /** Reads the state in one transaction and logs it in another. */
    method AppendRejectedControl(code: string)
      requires Valid()
      modifies this`spine, this`acts
      ensures Logged(old(spine), spine, held, code) && acts == old(acts) + [Rejects(code)]
    {
      hide SpineInv, Rely;
      var run := GetRun();
      OtherSessions();
      LogContinues(old(spine), spine, held, Rejection(CONTROL_REJECTED, run.state, code));
      InsertEvent(Rejection(CONTROL_REJECTED, run.state, code));
      acts := acts + [Rejects(code)];
    }

    /** `transition` and `set_draft_and_transition`: move iff the record is current, else log the conflict. */
    method Transition(seen: RunRow, m: Move, now: Time) returns (r: Result<RunRow, string>)
      requires Valid()
      modifies this`spine, this`acts
      ensures acts == old(acts) + [if r.Ok? then Commits(seen, m, now) else Rejects(r.error)]
      ensures !CanTransition(seen.state, m.target) ==>
                r == Err(INVALID_TRANSITION) && Logged(old(spine), spine, held, INVALID_TRANSITION)
      ensures CanTransition(seen.state, m.target) && !CasWins(old(spine), seen) ==>
                r == Err(STATE_VERSION_CONFLICT) && Logged(old(spine), spine, held, STATE_VERSION_CONFLICT)
      ensures CanTransition(seen.state, m.target) && CasWins(old(spine), seen) ==>
                r == Ok(spine.run) && spine == Transitioned(old(spine), seen, m, now)
    {
      hide SpineInv, Rely, Transitions;
      if !CanTransition(seen.state, m.target) {
        AppendRejectedControl(INVALID_TRANSITION);
        return Err(INVALID_TRANSITION);
      }
      var row := spine.run;
      if row.state == seen.state && row.version == seen.version {
        row := row.(state := m.target, version := row.version + 1);
        if m.draft.Some? {
          row := row.(draft := m.draft, draftHash := Some(DraftHash(m.draft.value)), reviewExpiresAt := Some(now + REVIEW_POLICY));
        }
        spine := spine.(run := row);
        InsertEvent(Event(m.eventType, Some(seen.state), Some(m.target), m.code));
        acts := acts + [Commits(seen, m, now)];
        return Ok(row);
      }
      RelyIsReflexive(spine);
      OtherSessions();
      ghost var before := spine;
      AppendRejectedControl(STATE_VERSION_CONFLICT);
      ContinuesIsTransitive(old(spine), before, spine, held);
      r := Err(STATE_VERSION_CONFLICT);
    }

    /**
     Blocks on the tool's lock, then either observes the row that is there or inserts it and keeps the lock.
     Under the lock nobody else can insert it in between, so the UNIQUE constraint is never hit. For a caller that
     stands at the stage of the tool, with `run` as its record, this is a justified step of the run.
     */
    method ClaimOrObserveTool(t: Tool, ghost run: RunRow, ghost bundle: seq<Evidence>) returns (row: ToolRow, claim: ToolClaim?)
      requires Valid() && t !in held
      modifies this
      ensures t in spine.tools && spine.tools[t] == row
      ensures acts == old(acts) + [if claim == null then Observes(t, row) else Claims(t)]
      ensures locks == old(locks) + [Took(t)] + if claim == null then [Gave(t)] else []
      ensures claim == null ==> Valid() && Continues(old(spine), spine, old(held)) && held == old(held)
      ensures claim != null ==>
                && fresh(claim) && claim.repository == this && claim.tool == t && !claim.released
                && held == old(held) + {t} && row == Started && InsertedFresh(old(spine), spine, old(held), t)
      ensures PcInv(old(spine), Wants(run, t, bundle)) ==>
                && Valid() && Continues(old(spine), spine, old(held))
                && PcInv(spine, if claim == null then AfterTool(run, t, row) else Owning(run, t, bundle))
    {
      hide SpineInv, Rely, PcInv, AfterTool, Continues;
      ghost var staged := PcInv(spine, Wants(run, t, bundle));
      OtherSessions();  // while blocked on the lock
      ghost var locked := spine;
      held, locks := held + {t}, locks + [Took(t)];
      OtherSessions();
      FewerHeld(locked, spine, held, old(held));
      ContinuesIsTransitive(old(spine), locked, spine, old(held));
      if staged {
        WantsToHolding(old(spine), locked, spine, old(held), run, t, bundle);
      }
      if t in spine.tools {
        if staged {
          ObserveStep(spine, Holding(run, t, bundle));
        }
        held, locks := held - {t}, locks + [Gave(t)];
        acts := acts + [Observes(t, spine.tools[t])];
        return spine.tools[t], null;
      }
      ghost var looked := spine;
      OtherSessions();
      ghost var vacant := spine;
      UntouchedTool(looked, vacant, held, t);
      FewerHeld(looked, vacant, held, old(held));
      ContinuesIsTransitive(old(spine), looked, vacant, old(held));
      spine := spine.(tools := spine.tools[t := Started]);
      if staged {
        ReloadStep(looked, Holding(run, t, bundle));
        ContinuesKeeps(looked, vacant, held, Vacant(run, t, bundle));
        InsertStep(vacant, run, t, bundle);
        InsertContinues(old(spine), vacant, old(held), t);
      }
      row := Started;
      acts := acts + [Claims(t)];
      claim := new ToolClaim(this, t);
    }

    /** Only `UPDATE ... RETURNING` on a missing row raises; the service always holds the claim. */
    method CompleteTool(t: Tool, row: ToolRow) returns (error: Option<string>)
      modifies this`spine, this`acts
      ensures if t in old(spine).tools
              then error == None && spine == WithTool(old(spine), t, row) && acts == old(acts) + [Finishes(t, row)]
              else error == Some("TOOL_INVOCATION_MISSING") && spine == old(spine) && acts == old(acts)
    {
      if t !in spine.tools {
        return Some("TOOL_INVOCATION_MISSING");
      }
      spine := spine.(tools := spine.tools[t := row]);
      acts := acts + [Finishes(t, row)];
      error := None;
    }

    /** One transaction on the locked row. */
    method RecordReview(r: Review) returns (result: Result<RunRow, string>)
      requires Valid()
      modifies this`spine
      ensures spine == Reviewed(old(spine), r)
      ensures match ReviewError(old(spine), r)
              case Some(code) => result == Err(code)
              case None => result == Ok(spine.run)
    {
      var run := spine.run;
      var code: Option<string> := None;
      if run.shadow {
        code := Some("SHADOW_REVIEW_FORBIDDEN");
      } else if spine.decision.Some? || run.state != AWAITING_HUMAN {
        code := Some("RUN_ALREADY_DECIDED");
      } else if r.principal != run.assignedReviewer {
        code := Some("WRONG_REVIEWER");
      } else if Some(r.submitted) != run.draftHash {
        code := Some("STALE_APPROVAL_TARGET");
      } else if run.reviewExpiresAt.None? || r.now > run.reviewExpiresAt.value {
        code := Some("REVIEW_EXPIRED");
      }
      if code.Some? {
        InsertEvent(Rejection(REVIEW_REJECTED, run.state, code.value));
        return Err(code.value);
      }
      var target := ReviewTarget(r.action);
      spine := spine.(decision := Some(Decision(r.action, r.principal, r.submitted, r.edited, r.now)),
                      run := run.(state := target, version := run.version + 1));
      InsertEvent(Event(REVIEW_DECIDED, Some(AWAITING_HUMAN), Some(target), ""));
      spine := spine.(run := spine.run.(state := CLOSED, version := spine.run.version + 1));
      InsertEvent(Event(RUN_CLOSED, Some(target), Some(CLOSED), ""));
      assert spine.events == old(spine).events + [Event(REVIEW_DECIDED, Some(AWAITING_HUMAN), Some(target), ""),
                                                  Event(RUN_CLOSED, Some(target), Some(CLOSED), "")];
      result := Ok(spine.run);
    }
  }

  /** The row is new since `a`, inserted into tables that others may have moved on. */
  ghost predicate InsertedFresh(a: Spine, b: Spine, held: set<Tool>, t: Tool) {
    exists mid :: SpineInv(mid) && Continues(a, mid, held) && t !in mid.tools && b == WithTool(mid, t, Started)
  }

  lemma FewerHeld(a: Spine, b: Spine, held: set<Tool>, fewer: set<Tool>)
    requires Continues(a, b, held) && fewer <= held
    ensures Continues(a, b, fewer)
  {
  }

  lemma UntouchedTool(a: Spine, b: Spine, held: set<Tool>, t: Tool)
    requires Continues(a, b, held) && t in held && t !in a.tools
    ensures t !in b.tools
  {
  }

  lemma WantsToHolding(a: Spine, b: Spine, c: Spine, held: set<Tool>, run: RunRow, t: Tool, bundle: seq<Evidence>)
    requires SpineInv(a) && SpineInv(b) && PcInv(a, Wants(run, t, bundle))
    requires Continues(a, b, held) && Continues(b, c, held + {t})
    ensures PcInv(c, Holding(run, t, bundle))
  {
    hide SpineInv, PcInv, Continues;
    ContinuesKeeps(a, b, held, Wants(run, t, bundle));
    ReloadStep(b, Wants(run, t, bundle));
    ContinuesKeeps(b, c, held + {t}, Holding(run, t, bundle));
  }

  lemma InsertContinues(a: Spine, b: Spine, held: set<Tool>, t: Tool)
    requires SpineInv(a) && SpineInv(b) && SpineInv(WithTool(b, t, Started)) && Continues(a, b, held)
    requires Rely(b, WithTool(b, t, Started)) && t !in held
    ensures Continues(a, WithTool(b, t, Started), held)
  {
    hide SpineInv, Rely;
    RelyTransitive(a, b, WithTool(b, t, Started));
  }

  // ------------------------------------------------- the bound on the others

  ghost function HeldBy(s: System, c: CallerId): set<Tool> {
    set t | t in s.locks && s.locks[t] == c
  }

  predicate IsStepOf(step: Step, c: CallerId) {
    (step.Join? || step.Advance? || step.Invoke? || step.Crash?) && step.caller == c
  }

  /** Every step that is not its own is, for a lock holder, one that `OtherSessions` allows. */
  lemma OthersContinue(s: System, step: Step, c: CallerId)
    requires Inv(s) && !IsStepOf(step, c)
    ensures Continues(s.spine, Apply(s, step).spine, HeldBy(s, c))
  {
    hide SpineInv, PcInv, Rely, Dispatch, AfterTool, Advanced, CallInv, ServiceReviewed;
    StepKeepsInv(s, step);
    match step
    case Advance(d, now) =>
      if CanAdvance(s, d) {
        assert PcInv(s.spine, s.callers[d]);
        AdvanceTouches(s, d, now);
        AdvanceLogs(s, d, now);
      }
    case Decide(r, stale) => ReviewLogs(s.spine, r, stale);
    case _ =>
  }

  lemma AdvanceLogs(s: System, d: CallerId, now: Time)
    requires CanAdvance(s, d)
    ensures s.spine.events <= Advanced(s, d, now).spine.events
  {
    hide Dispatch, AfterTool, RowFor, CanTransition;
  }

  lemma ReviewLogs(sp: Spine, r: Review, stale: RunState)
    ensures sp.events <= ServiceReviewed(sp, r, stale).events && ServiceReviewed(sp, r, stale).tools == sp.tools
  {
    hide ValidCitations, IdsOf, ListEvidence;
  }
}
