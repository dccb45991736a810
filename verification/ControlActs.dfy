/** What one session did to a run, in order, and what entitles it to each act. */
module ControlActs {
  import opened Wrappers
  import opened Evidence
  import opened ControlModel
  import opened ControlSystem
  import opened ControlRules

  datatype Act =
    | Observes(tool: Tool, row: ToolRow)               // read under the tool's lock
    | Claims(tool: Tool)                               // inserted the started row
    | Finishes(tool: Tool, row: ToolRow)               // completed the row it had inserted
    | Commits(seen: RunRow, move: Move, now: Time)     // won the compare-and-set
    | Rejects(code: string)                            // logged a refusal

  /** The outside of the service: evidence tools, reasoning adapter and clock. */
  datatype Ports = Ports(evidenceTool: Tool -> Outcome, reasoning: seq<Evidence> -> Outcome, clock: nat -> Time)

  ghost predicate IsReading(p: Ports, now: Time) {
    exists i: nat :: p.clock(i) == now
  }

  /** A claimed row is completed with what its own tool answered; reasoning is asked on the stored evidence. */
  ghost predicate Answers(p: Ports, t: Tool, row: ToolRow, tools: map<Tool, ToolRow>) {
    if t == REASONING_TOOL then
      AllGathered(tools) && Leaves(p.reasoning(ListEvidence(tools)), ListEvidence(tools), row)
    else Leaves(p.evidenceTool(t), [], row)
  }

  /** The move is escalation at a stage that waits for tools. */
  predicate StopsForATool(seen: RunRow, m: Move) {
    m.target == ESCALATED && seen.state in {GATHERING_EVIDENCE, REASONING}
  }

  /**
   What entitles to a move: the row read or completed just before, if it stops the stage; otherwise that the rows
   call for the move.
   */
  ghost predicate Entitled(prev: Option<Act>, seen: RunRow, m: Move, tools: map<Tool, ToolRow>) {
    if StopsForATool(seen, m) then
      && prev.Some? && (prev.value.Observes? || prev.value.Finishes?)
      && StageOf(prev.value.tool) == seen.state
      && m == Move(ESCALATED, RUN_ESCALATED, m.code, None)
      && StopsAt(tools, prev.value.tool, prev.value.row, m.code)
    else
      && CalledFor(tools, seen, m)
      && (seen.state in {QUALITY_CHECKS, DRAFTING_RECOMMENDATION} ==> AllGathered(tools))
      && (seen.state == DRAFTING_RECOMMENDATION ==> Has(tools, REASONING_TOOL))
  }

  /** One act, between the one before it and the one after it. */
  ghost predicate RightfulAct(p: Ports, prev: Option<Act>, act: Act, next: Option<Act>, sp: Spine) {
    match act
    case Observes(t, row) => t in sp.tools && (row != Started ==> sp.tools[t] == row)
    case Claims(t) => next.Some? && next.value.Finishes? && next.value.tool == t
    case Finishes(t, row) =>
      && prev == Some(Claims(t)) && t in sp.tools && sp.tools[t] == row && row != Started
      && Answers(p, t, row, sp.tools)
    case Commits(seen, m, now) =>
      && Entitled(prev, seen, m, sp.tools) && IsReading(p, now)
      && Event(m.eventType, Some(seen.state), Some(m.target), m.code) in sp.events
    case Rejects(code) => code == "STATE_VERSION_CONFLICT"
  }

  function Prev(acts: seq<Act>, k: nat): Option<Act>
    requires k < |acts|
  {
    if k > 0 then Some(acts[k - 1]) else None
  }

  function Next(acts: seq<Act>, k: nat): Option<Act>
    requires k < |acts|
  {
    if k + 1 < |acts| then Some(acts[k + 1]) else None
  }

  /** All that the session did was its to do. */
  ghost predicate Rightful(p: Ports, acts: seq<Act>, sp: Spine) {
    forall k | 0 <= k < |acts| :: RightfulAct(p, Prev(acts, k), acts[k], Next(acts, k), sp)
  }

  // ------------------------------------------------------------- stability

  /** How the rows go on, as far as acts depend on them. */
  ghost predicate GoesOn(a: Spine, b: Spine) {
    a.events <= b.events && forall t | t in a.tools :: t in b.tools && (a.tools[t] != Started ==> b.tools[t] == a.tools[t])
  }

  lemma ResultsStay(a: Spine, b: Spine)
    requires GoesOn(a, b)
    ensures forall t :: Has(a.tools, t) ==> Has(b.tools, t) && b.tools[t] == a.tools[t]
    ensures AllGathered(a.tools) ==> AllGathered(b.tools) && ListEvidence(b.tools) == ListEvidence(a.tools)
  {
    if AllGathered(a.tools) {
      EvidenceStays(a.tools, b.tools);
    }
    hide ListEvidence;
  }

  lemma EntitledStays(prev: Option<Act>, seen: RunRow, m: Move, a: Spine, b: Spine)
    requires Entitled(prev, seen, m, a.tools) && GoesOn(a, b)
    ensures Entitled(prev, seen, m, b.tools)
  {
    ResultsStay(a, b);
    hide Accepted, RefusedWith, Cites, ListEvidence, UnfinishedIn, GoesOn;
  }

  lemma ActStaysRightful(p: Ports, prev: Option<Act>, act: Act, next: Option<Act>, a: Spine, b: Spine)
    requires RightfulAct(p, prev, act, next, a) && GoesOn(a, b)
    ensures RightfulAct(p, prev, act, next, b)
  {
    hide Entitled, Leaves, IsReading;
    match act
    case Commits(seen, m, now) => EntitledStays(prev, seen, m, a, b);
    case Finishes(t, row) => ResultsStay(a, b);
    case _ =>
  }

  /** Acts of the same session before or after take nothing away. */
  lemma MoreActsAround(p: Ports, prev: Option<Act>, act: Act, next: Option<Act>, before: Option<Act>, after: Option<Act>, sp: Spine)
    requires RightfulAct(p, prev, act, next, sp)
    ensures RightfulAct(p, if prev.Some? then prev else before, act, if next.Some? then next else after, sp)
  {
    hide Answers, CalledFor, StopsAt, IsReading;
  }

  lemma NothingDone(p: Ports, sp: Spine)
    ensures Rightful(p, [], sp)
  {
  }

  lemma RightfulStays(p: Ports, acts: seq<Act>, a: Spine, b: Spine)
    requires Rightful(p, acts, a) && GoesOn(a, b)
    ensures Rightful(p, acts, b)
  {
    hide RightfulAct, GoesOn;
    forall k | 0 <= k < |acts|
      ensures RightfulAct(p, Prev(acts, k), acts[k], Next(acts, k), b)
    {
      ActStaysRightful(p, Prev(acts, k), acts[k], Next(acts, k), a, b);
    }
  }

  lemma RightfulTogether(p: Ports, x: seq<Act>, y: seq<Act>, sp: Spine)
    requires Rightful(p, x, sp) && Rightful(p, y, sp)
    ensures Rightful(p, x + y, sp)
  {
    hide RightfulAct;
    var z := x + y;
    forall k | 0 <= k < |z|
      ensures RightfulAct(p, Prev(z, k), z[k], Next(z, k), sp)
    {
      if k < |x| {
        MoreActsAround(p, Prev(x, k), x[k], Next(x, k), None, if y != [] then Some(y[0]) else None, sp);
      } else {
        var j := k - |x|;
        MoreActsAround(p, Prev(y, j), y[j], Next(y, j), if x != [] then Some(x[|x| - 1]) else None, None, sp);
      }
    }
  }

  /** What was done before and what has been done since, both rightful as the rows stand now. */
  lemma RightfulThen(p: Ports, x: seq<Act>, a: Spine, y: seq<Act>, b: Spine)
    requires Rightful(p, x, a) && GoesOn(a, b) && Rightful(p, y, b)
    ensures Rightful(p, x + y, b)
  {
    hide Rightful, GoesOn;
    RightfulStays(p, x, a, b);
    RightfulTogether(p, x, y, b);
  }

  lemma ObservedIsRightful(p: Ports, t: Tool, row: ToolRow, sp: Spine)
    requires t in sp.tools && sp.tools[t] == row
    ensures Rightful(p, [Observes(t, row)], sp)
  {
  }

  lemma CallIsRightful(p: Ports, t: Tool, row: ToolRow, sp: Spine)
    requires t in sp.tools && sp.tools[t] == row && row != Started && Answers(p, t, row, sp.tools)
    ensures Rightful(p, [Claims(t), Finishes(t, row)], sp)
  {
    hide Answers;
  }

  lemma RejectIsRightful(p: Ports, sp: Spine)
    ensures Rightful(p, [Rejects("STATE_VERSION_CONFLICT")], sp)
  {
  }

  /** A move after the work it is due to. */
  lemma CommitIsRightful(p: Ports, work: seq<Act>, seen: RunRow, m: Move, now: Time, a: Spine, b: Spine)
    requires Rightful(p, work, a) && GoesOn(a, b)
    requires Entitled(if work == [] then None else Some(work[|work| - 1]), seen, m, a.tools) && IsReading(p, now)
    requires Event(m.eventType, Some(seen.state), Some(m.target), m.code) in b.events
    ensures Rightful(p, work + [Commits(seen, m, now)], b)
  {
    hide RightfulAct, Entitled, GoesOn, IsReading;
    var last := if work == [] then None else Some(work[|work| - 1]);
    EntitledStays(last, seen, m, a, b);
    CommitAct(p, last, seen, m, now, b);
    RightfulStays(p, work, a, b);
    var z := work + [Commits(seen, m, now)];
    forall k | 0 <= k < |z|
      ensures RightfulAct(p, Prev(z, k), z[k], Next(z, k), b)
    {
      if k < |work| {
        MoreActsAround(p, Prev(work, k), work[k], Next(work, k), None, Some(Commits(seen, m, now)), b);
      }
    }
  }

  lemma CommitAct(p: Ports, prev: Option<Act>, seen: RunRow, m: Move, now: Time, sp: Spine)
    requires Entitled(prev, seen, m, sp.tools) && IsReading(p, now)
    requires Event(m.eventType, Some(seen.state), Some(m.target), m.code) in sp.events
    ensures RightfulAct(p, prev, Commits(seen, m, now), None, sp)
  {
    hide Entitled, IsReading;
  }
}
