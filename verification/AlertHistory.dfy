/** The append-only evaluation history of alerts, one fingerprint at a time, and the lifecycle it tells. */
module AlertHistory {
  import opened Wrappers
  import opened Identity

  /** What a fingerprint digests: the policy and its correlation, no window and no observed value. */
  datatype Fingerprint = Fingerprint(
    policyId: string, policyVersion: string, tenantId: string, runId: Option<string>, caseId: Option<string>)

  datatype AlertEvent = AlertEvent(
    fingerprint: Fingerprint,
    state: Option<AlertState>,
    previousState: Option<AlertState>,
    transition: Transition,
    assessment: Assessment,
    payloadHash: Hash,
    idempotencyKey: string,
    evaluatedAt: Time)

  datatype Request = Request(
    tenantId: string,
    fingerprint: Fingerprint,
    assessment: Assessment,
    payload: string,
    idempotencyKey: string,
    evaluatedAt: Time)

  datatype AlertError = TenantNotFound | IdempotencyConflict | EnqueueRejected

  /** The state an evaluation stores and the transition it reports. */
  function NextState(previous: Option<AlertState>, a: Assessment): (Option<AlertState>, Transition) {
    match a
    case Unmeasured => (None, UNMEASURED)
    case Measured(breached) =>
      if breached then (Some(FIRING), if previous == Some(FIRING) then STILL_FIRING else FIRED)
      else if previous == Some(FIRING) then (Some(CALM), RESOLVED)
      else (Some(OK), if previous.Some? then STILL_OK else INITIAL_OK)
  }

  /** The most recent stored state of a fingerprint; unmeasured evaluations store none. */
  function LatestState(h: seq<AlertEvent>, f: Fingerprint): Option<AlertState> {
    if h == [] then None
    else if h[|h| - 1].fingerprint == f && h[|h| - 1].state.Some? then h[|h| - 1].state
    else LatestState(h[..|h| - 1], f)
  }

  /** An earlier evaluation under the same idempotency key, or with the same payload. */
  predicate UsedKey(h: seq<AlertEvent>, r: Request) {
    exists i | 0 <= i < |h| :: h[i].fingerprint == r.fingerprint && h[i].idempotencyKey == r.idempotencyKey
  }

  predicate UsedPayload(h: seq<AlertEvent>, r: Request) {
    exists i | 0 <= i < |h| :: h[i].fingerprint == r.fingerprint && h[i].payloadHash == Sha256([r.payload])
  }

  predicate UsedBoth(h: seq<AlertEvent>, r: Request) {
    exists i | 0 <= i < |h| ::
      h[i].fingerprint == r.fingerprint && h[i].idempotencyKey == r.idempotencyKey && h[i].payloadHash == Sha256([r.payload])
  }

  function NewEvent(h: seq<AlertEvent>, r: Request): AlertEvent {
    var previous := LatestState(h, r.fingerprint);
    var (state, transition) := NextState(previous, r.assessment);
    AlertEvent(r.fingerprint, state, previous, transition, r.assessment, Sha256([r.payload]), r.idempotencyKey, r.evaluatedAt)
  }

  predicate Lifecycle(t: Transition) {
    t in {FIRED, RESOLVED}
  }

  /** Evaluation rows in id order, and the evaluation ids for which a delivery intent was enqueued. */
  datatype History = History(rows: seq<AlertEvent>, intents: seq<nat>)

  datatype Delivery = Disabled | Enabled(maxAttempts: int)

  predicate ValidBudget(d: Delivery) {
    d.Enabled? ==> 1 <= d.maxAttempts <= 100
  }

  /** Append one evaluation and, if it changes the lifecycle, its delivery intent; replays append nothing. */
  function Record(h: History, d: Delivery, r: Request): Result<History, AlertError> {
    if r.fingerprint.tenantId != r.tenantId then Err(TenantNotFound)
    else if UsedKey(h.rows, r) then
      if UsedBoth(h.rows, r) then Ok(h) else Err(IdempotencyConflict)
    else if UsedPayload(h.rows, r) then Ok(h)
    else
      var event := NewEvent(h.rows, r);
      if d.Enabled? && Lifecycle(event.transition) then
        if ValidBudget(d) then Ok(History(h.rows + [event], h.intents + [|h.rows| + 1])) else Err(EnqueueRejected)
      else Ok(h.(rows := h.rows + [event]))
  }

  function Recorded(d: Delivery, rs: seq<Request>): History {
    if rs == [] then History([], [])
    else
      var before := Recorded(d, rs[..|rs| - 1]);
      var done := Record(before, d, rs[|rs| - 1]);
      if done.Ok? then done.value else before
  }

  // ------------------------------------------------------- reference form

  /** The measured outcomes of a fingerprint, in order. */
  function Breaches(h: seq<AlertEvent>, f: Fingerprint): seq<bool> {
    if h == [] then []
    else
      var last := h[|h| - 1];
      Breaches(h[..|h| - 1], f)
      + if last.fingerprint == f && last.assessment.Measured? then [last.assessment.breached] else []
  }

  /** The state as a function of the last two measured outcomes alone. */
  function StateFromLastTwo(bs: seq<bool>): Option<AlertState> {
    if bs == [] then None
    else if bs[|bs| - 1] then Some(FIRING)
    else if |bs| >= 2 && bs[|bs| - 2] then Some(CALM)
    else Some(OK)
  }

  /** The FIRED and RESOLVED transitions of a fingerprint, in order. */
  function LifecycleOf(h: seq<AlertEvent>, f: Fingerprint): seq<Transition> {
    if h == [] then []
    else
      var last := h[|h| - 1];
      LifecycleOf(h[..|h| - 1], f) + if last.fingerprint == f && Lifecycle(last.transition) then [last.transition] else []
  }

  function Count(ts: seq<Transition>, t: Transition): nat {
    if ts == [] then 0 else Count(ts[..|ts| - 1], t) + if ts[|ts| - 1] == t then 1 else 0
  }

  ghost predicate Alternates(ts: seq<Transition>) {
    forall k | 0 <= k < |ts| :: ts[k] == if k % 2 == 0 then FIRED else RESOLVED
  }

  /** Ids of all lifecycle evaluations, in order. */
  function LifecycleIds(h: seq<AlertEvent>): seq<nat> {
    if h == [] then []
    else LifecycleIds(h[..|h| - 1]) + if Lifecycle(h[|h| - 1].transition) then [|h|] else []
  }

  // -------------------------------------------------------------- theorems

  lemma {:induction false} AlternationCounts(ts: seq<Transition>)
    requires Alternates(ts)
    ensures Count(ts, FIRED) == Count(ts, RESOLVED) + |ts| % 2
    ensures Count(ts, FIRED) + Count(ts, RESOLVED) == |ts|
  {
    if ts != [] {
      AlternationCounts(ts[..|ts| - 1]);
    }
  }

  lemma AppendedEvent(h: seq<AlertEvent>, r: Request)
    ensures (h + [NewEvent(h, r)])[..|h|] == h
  {
  }

  ghost predicate TellsLifecycle(h: seq<AlertEvent>, f: Fingerprint) {
    && LatestState(h, f) == StateFromLastTwo(Breaches(h, f))
    && Alternates(LifecycleOf(h, f))
    && (LatestState(h, f) == Some(FIRING) <==> |LifecycleOf(h, f)| % 2 == 1)
  }

  lemma AppendTellsLifecycle(h: seq<AlertEvent>, r: Request, f: Fingerprint)
    requires TellsLifecycle(h, f)
    ensures TellsLifecycle(h + [NewEvent(h, r)], f)
  {
    var h' := h + [NewEvent(h, r)];
    AppendedEvent(h, r);
    if r.fingerprint == f && r.assessment.Measured? {
      assert Breaches(h', f) == Breaches(h, f) + [r.assessment.breached];
    } else {
      assert Breaches(h', f) == Breaches(h, f) + [] == Breaches(h, f);
      assert LifecycleOf(h', f) == LifecycleOf(h, f) + [] == LifecycleOf(h, f);
    }
  }

  lemma {:induction false} RecordedTells(d: Delivery, rs: seq<Request>, f: Fingerprint)
    ensures TellsLifecycle(Recorded(d, rs).rows, f)
  {
    if rs != [] {
      RecordedTells(d, rs[..|rs| - 1], f);
      hide TellsLifecycle;
      AppendTellsLifecycle(Recorded(d, rs[..|rs| - 1]).rows, rs[|rs| - 1], f);
    }
  }

  /**
   For any sequence of record calls the stored state of a fingerprint depends only on its last two measured
   outcomes; FIRED and RESOLVED strictly alternate starting with FIRED, one ahead exactly while FIRING.
   */
  lemma HistoryTellsTheLifecycle(d: Delivery, rs: seq<Request>, f: Fingerprint)
    ensures var h := Recorded(d, rs).rows;
            var ts := LifecycleOf(h, f);
            && TellsLifecycle(h, f)
            && Count(ts, FIRED) == Count(ts, RESOLVED) + (if LatestState(h, f) == Some(FIRING) then 1 else 0)
  {
    RecordedTells(d, rs, f);
    hide Recorded;
    AlternationCounts(LifecycleOf(Recorded(d, rs).rows, f));
  }

  /** With delivery enabled, intents match the lifecycle evaluations one to one and in order; else there are none. */
  lemma {:induction false} IntentsMatchLifecycle(d: Delivery, rs: seq<Request>)
    ensures var h := Recorded(d, rs);
            h.intents == if d.Enabled? then LifecycleIds(h.rows) else []
  {
    if rs != [] {
      IntentsMatchLifecycle(d, rs[..|rs| - 1]);
      AppendedEvent(Recorded(d, rs[..|rs| - 1]).rows, rs[|rs| - 1]);
    }
  }

  lemma {:induction false} LifecycleIdsAscend(h: seq<AlertEvent>)
    ensures forall i, j | 0 <= i < j < |LifecycleIds(h)| :: LifecycleIds(h)[i] < LifecycleIds(h)[j]
    ensures forall i | 0 <= i < |LifecycleIds(h)| :: 1 <= LifecycleIds(h)[i] <= |h|
    ensures forall i | 0 <= i < |LifecycleIds(h)| :: Lifecycle(h[LifecycleIds(h)[i] - 1].transition)
    ensures forall e: nat | 1 <= e <= |h| && Lifecycle(h[e - 1].transition) :: e in LifecycleIds(h)
  {
    if h != [] {
      LifecycleIdsAscend(h[..|h| - 1]);
    }
  }

  /** Neither UNIQUE constraint of the evaluation table is ever hit, and a replayed request inserts nothing. */
  lemma {:induction false} EvaluationsAreUnique(d: Delivery, rs: seq<Request>, i: nat, j: nat)
    requires i < j < |Recorded(d, rs).rows|
    requires Recorded(d, rs).rows[i].fingerprint == Recorded(d, rs).rows[j].fingerprint
    ensures Recorded(d, rs).rows[i].idempotencyKey != Recorded(d, rs).rows[j].idempotencyKey
    ensures Recorded(d, rs).rows[i].payloadHash != Recorded(d, rs).rows[j].payloadHash
  {
    var before := Recorded(d, rs[..|rs| - 1]).rows;
    if j < |before| {
      EvaluationsAreUnique(d, rs[..|rs| - 1], i, j);
    }
  }

  lemma ReplaysInsertNothing(d: Delivery, rs: seq<Request>, r: Request)
    requires r in rs && ValidBudget(d)
    ensures Recorded(d, rs + [r]) == Recorded(d, rs)
  {
    assert (rs + [r])[..|rs|] == rs;
    SeenStaysSeen(d, rs, r);
  }

  lemma {:induction false} SeenStaysSeen(d: Delivery, rs: seq<Request>, r: Request)
    requires r in rs && ValidBudget(d)
    ensures r.fingerprint.tenantId != r.tenantId || UsedKey(Recorded(d, rs).rows, r) || UsedPayload(Recorded(d, rs).rows, r)
  {
    var before, last := rs[..|rs| - 1], rs[|rs| - 1];
    var h, h' := Recorded(d, before).rows, Recorded(d, rs).rows;
    assert h <= h';
    if r in before {
      SeenStaysSeen(d, before, r);
      if UsedKey(h, r) {
        var i :| 0 <= i < |h| && h[i].fingerprint == r.fingerprint && h[i].idempotencyKey == r.idempotencyKey;
        assert h'[i] == h[i];
      }
      if UsedPayload(h, r) {
        var i :| 0 <= i < |h| && h[i].fingerprint == r.fingerprint && h[i].payloadHash == Sha256([r.payload]);
        assert h'[i] == h[i];
      }
    } else {
      assert r == last;
      if r.fingerprint.tenantId == r.tenantId && !UsedKey(h, r) && !UsedPayload(h, r) {
        assert h'[|h|] == NewEvent(h, r);
      }
    }
  }

  // ------------------------------------------------------ each single answer

  /** What an assessment reports after the measured outcomes so far. */
  function TransitionAfter(bs: seq<bool>, a: Assessment): Transition {
    match a
    case Unmeasured => UNMEASURED
    case Measured(breached) =>
      var firing := bs != [] && bs[|bs| - 1];
      if breached then (if firing then STILL_FIRING else FIRED)
      else if firing then RESOLVED
      else if bs == [] then INITIAL_OK
      else STILL_OK
  }

  function OutcomesAfter(bs: seq<bool>, a: Assessment): seq<bool> {
    if a.Measured? then bs + [a.breached] else bs
  }

  ghost predicate TellsOutcomes(h: seq<AlertEvent>, k: nat)
    requires k < |h|
  {
    var bs := Breaches(h[..k], h[k].fingerprint);
    && h[k].transition == TransitionAfter(bs, h[k].assessment)
    && h[k].previousState == StateFromLastTwo(bs)
    && h[k].state == if h[k].assessment.Measured? then StateFromLastTwo(OutcomesAfter(bs, h[k].assessment)) else None
  }

  lemma NewEventTells(h: seq<AlertEvent>, r: Request)
    requires LatestState(h, r.fingerprint) == StateFromLastTwo(Breaches(h, r.fingerprint))
    ensures TellsOutcomes(h + [NewEvent(h, r)], |h|)
  {
    var bs := Breaches(h, r.fingerprint);
    NextStateTells(bs, r.assessment);
    assert (h + [NewEvent(h, r)])[..|h|] == h && (h + [NewEvent(h, r)])[|h|] == NewEvent(h, r);
    hide Breaches, LatestState, NextState, StateFromLastTwo, TransitionAfter, OutcomesAfter;
  }

  lemma NextStateTells(bs: seq<bool>, a: Assessment)
    ensures NextState(StateFromLastTwo(bs), a)
            == (if a.Measured? then StateFromLastTwo(OutcomesAfter(bs, a)) else None, TransitionAfter(bs, a))
  {
  }

  /** Every stored evaluation reports what the measured outcomes before it and its own make of it. */
  lemma {:induction false} EventsTellOutcomes(d: Delivery, rs: seq<Request>, k: nat)
    requires k < |Recorded(d, rs).rows|
    ensures TellsOutcomes(Recorded(d, rs).rows, k)
  {
    hide TellsOutcomes, TellsLifecycle, NewEvent;
    var before, last := rs[..|rs| - 1], rs[|rs| - 1];
    var h, h' := Recorded(d, before).rows, Recorded(d, rs).rows;
    if k < |h| {
      EventsTellOutcomes(d, before, k);
      SamePrefixTells(h, h', k);
    } else {
      RecordedTells(d, before, last.fingerprint);
      LatestTells(h, last.fingerprint);
      NewEventTells(h, last);
    }
  }

  lemma LatestTells(h: seq<AlertEvent>, f: Fingerprint)
    requires TellsLifecycle(h, f)
    ensures LatestState(h, f) == StateFromLastTwo(Breaches(h, f))
  {
  }

  lemma SamePrefixTells(h: seq<AlertEvent>, h': seq<AlertEvent>, k: nat)
    requires k < |h| && h <= h' && TellsOutcomes(h, k)
    ensures TellsOutcomes(h', k)
  {
    assert h'[..k] == h[..k] && h'[k] == h[k];
  }

  /** A key conflicts exactly if the one evaluation stored under it has another payload. */
  lemma ConflictIff(d: Delivery, rs: seq<Request>, r: Request)
    ensures var h := Recorded(d, rs);
            Record(h, d, r) == Err(IdempotencyConflict)
            <==> && r.fingerprint.tenantId == r.tenantId
                 && exists i :: 0 <= i < |h.rows| && h.rows[i].fingerprint == r.fingerprint
                                && h.rows[i].idempotencyKey == r.idempotencyKey && h.rows[i].payloadHash != Sha256([r.payload])
  {
    var rows := Recorded(d, rs).rows;
    forall i, j | 0 <= i < j < |rows| && rows[i].fingerprint == rows[j].fingerprint
      ensures rows[i].idempotencyKey != rows[j].idempotencyKey
    {
      EvaluationsAreUnique(d, rs, i, j);
    }
    hide Recorded, NewEvent;
  }

  /** A request whose evaluation is stored under its own key is answered with it ever after. */
  lemma StoredRequestIsReplayed(d: Delivery, rs: seq<Request>, more: seq<Request>, r: Request)
    requires r.fingerprint.tenantId == r.tenantId && UsedBoth(Recorded(d, rs).rows, r)
    ensures Record(Recorded(d, rs + more), d, r) == Ok(Recorded(d, rs + more))
  {
    RowsStay(d, rs, more);
    var h, h' := Recorded(d, rs).rows, Recorded(d, rs + more).rows;
    var i :| 0 <= i < |h| && h[i].fingerprint == r.fingerprint && h[i].idempotencyKey == r.idempotencyKey
             && h[i].payloadHash == Sha256([r.payload]);
    assert h'[i] == h[i];
    hide Recorded, NewEvent;
  }

  lemma {:induction false} RowsStay(d: Delivery, rs: seq<Request>, more: seq<Request>)
    ensures Recorded(d, rs).rows <= Recorded(d, rs + more).rows
    decreases |more|
  {
    if more == [] {
      assert rs + more == rs;
    } else {
      RowsStay(d, rs, more[..|more| - 1]);
      assert (rs + more)[..|rs + more| - 1] == rs + more[..|more| - 1];
    }
  }

  /**
   But a request that was answered by its payload alone has not bound its key: another payload may take the key
   afterwards, and the same request then conflicts.
   */
  lemma PayloadReplayDoesNotBindTheKey(f: Fingerprint, a: Assessment, at: Time, k: string, l: string, p: string, q: string)
    requires k != l && p != q
    ensures var first := Request(f.tenantId, f, a, p, k, at);
            var again := Request(f.tenantId, f, a, p, l, at);
            var other := Request(f.tenantId, f, a, q, l, at);
            && Record(Recorded(Disabled, [first]), Disabled, again) == Ok(Recorded(Disabled, [first]))
            && Record(Recorded(Disabled, [first, other]), Disabled, again) == Err(IdempotencyConflict)
  {
    var first := Request(f.tenantId, f, a, p, k, at);
    var again := Request(f.tenantId, f, a, p, l, at);
    var other := Request(f.tenantId, f, a, q, l, at);
    hide NextState, LatestState;
    assert [first][..0] == [] && [first, other][..1] == [first];
    assert Recorded(Disabled, []) == History([], []);
    assert !UsedKey([], first) && !UsedPayload([], first);
    var h1 := Recorded(Disabled, [first]).rows;
    assert h1 == [NewEvent([], first)];
    assert h1[0].payloadHash == Sha256([p]) && Sha256([p]).fields[0] != Sha256([q]).fields[0];
    var h2 := Recorded(Disabled, [first, other]).rows;
    assert h2 == h1 + [NewEvent(h1, other)];
    assert h2[1].idempotencyKey == l && h2[1].payloadHash == Sha256([q]);
  }
}
