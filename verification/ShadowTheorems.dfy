/** Single claims, exactly one completion and freedom from deadlock, in every run of the shadow system. */
module ShadowTheorems {
  import opened Wrappers
  import opened Evidence
  import opened Identity
  import opened ShadowSystem
  import opened ShadowInvariant

  function Before(run: seq<Step>): seq<Step>
    requires run != []
  {
    run[..|run| - 1]
  }

  function Last(run: seq<Step>): Step
    requires run != []
  {
    run[|run| - 1]
  }

  lemma {:induction false} RunsMoveOn(h: Hashing, run: seq<Step>, more: seq<Step>)
    requires KindsApart(h)
    ensures Rely(After(h, run), After(h, run + more))
    decreases |more|
  {
    hide Inv, Apply;
    if more == [] {
      assert run + more == run;
    } else {
      RunsMoveOn(h, run, Before(more));
      assert (run + more)[..|run + more| - 1] == run + Before(more);
      RunKeepsInv(h, run + Before(more));
      StepKeepsInv(h, After(h, run + Before(more)), Last(more));
    }
  }

  // ---------------------------------------------------------- single claims

  /** At most one live claim per shadow run, and only on a run that has not finished. */
  lemma AtMostOneClaim(h: Hashing, run: seq<Step>, c: CallerId, d: CallerId)
    requires KindsApart(h) && c in After(h, run).callers && d in After(h, run).callers
    requires ClaimOf(After(h, run).callers[c]).Some? && ClaimOf(After(h, run).callers[d]).Some?
    requires ClaimOf(After(h, run).callers[c]).value.id == ClaimOf(After(h, run).callers[d]).value.id
    ensures c == d
    ensures ClaimInv(After(h, run), ClaimOf(After(h, run).callers[c]).value)
  {
    RunKeepsInv(h, run);
    hide LockInv, RowsInv, Keys;
    var s := After(h, run);
    assert PcInv(h, s, s.callers[c]) && PcInv(h, s, s.callers[d]);
    InsideExcludes(h, s, c, d);
  }

  /**
   What a caller saw stays true until it acts: the insert hits neither UNIQUE constraint, completion never
   finds the row finished, and an investigation once nested is still the one bound to the payload.
   */
  lemma NobodyIsRefusedLate(h: Hashing, run: seq<Step>, c: CallerId)
    requires KindsApart(h) && c in After(h, run).callers
    ensures var s, pc := After(h, run), After(h, run).callers[c];
            && (pc.Inserting? ==> forall i | i in s.rows :: !Matches(s.rows[i], pc.request))
            && (pc.Completing? ==> pc.claim.id in s.rows && s.rows[pc.claim.id].status == Started)
            && (pc.Working? && pc.nest.Some? ==>
                  var k := NestKey(pc.nest.value);
                  k in s.intakes && s.intakes[k].investigation == pc.investigation
                  && s.intakes[k].input == pc.nest.value.request.payload.input)
            && (pc.Done? ==> pc.answer != Conflict("SHADOW_COMPLETION_CONFLICT"))
  {
    RunKeepsInv(h, run);
    PcHolds(h, After(h, run), c);
    hide Inv, PcInv, RowsInv, After, Matches, NestKey;
    PcTells(h, After(h, run), After(h, run).callers[c]);
  }

  lemma PcTells(h: Hashing, s: System, pc: Pc)
    requires PcInv(h, s, pc)
    ensures pc.Inserting? ==> forall i | i in s.rows :: !Matches(s.rows[i], pc.request)
    ensures pc.Completing? ==> pc.claim.id in s.rows && s.rows[pc.claim.id].status == Started
    ensures pc.Working? && pc.nest.Some? ==>
              var k := NestKey(pc.nest.value);
              k in s.intakes && s.intakes[k].investigation == pc.investigation
              && s.intakes[k].input == pc.nest.value.request.payload.input
    ensures pc.Done? ==> pc.answer != Conflict("SHADOW_COMPLETION_CONFLICT")
  {
    hide Keys, Matches, ShadowKey;
    if pc.Inserting? {
      forall i | i in s.rows
        ensures !Matches(s.rows[i], pc.request)
      {
        assert i !in Matching(s.rows, pc.request);
      }
    }
  }

  /** Claims on one history are on one row exactly when their payloads agree, whatever keys they came under. */
  lemma ClaimsAgreeIffSamePayload(h: Hashing, run: seq<Step>, more: seq<Step>, c: CallerId, d: CallerId)
    requires KindsApart(h) && c in After(h, run).callers && d in After(h, run + more).callers
    requires ClaimOf(After(h, run).callers[c]).Some? && ClaimOf(After(h, run + more).callers[d]).Some?
    ensures var a, b := ClaimOf(After(h, run).callers[c]).value, ClaimOf(After(h, run + more).callers[d]).value;
            a.id == b.id <==> a.request.payload == b.request.payload
  {
    RunKeepsInv(h, run);
    RunKeepsInv(h, run + more);
    RunsMoveOn(h, run, more);
    var s, s' := After(h, run), After(h, run + more);
    PcHolds(h, s, c);
    PcHolds(h, s', d);
    ClaimHolds(h, s, s.callers[c]);
    ClaimHolds(h, s', s'.callers[d]);
    var a, b := ClaimOf(s.callers[c]).value, ClaimOf(s'.callers[d]).value;
    hide Inv, LockInv, Keys, NestedRows, UniqueRows, PcInv, After, ClaimOf;
    if a.request.payload == b.request.payload {
      OnePayloadOneRow(s'.rows, s'.nextRow, a.id, b.id);
    }
  }

  lemma ClaimHolds(h: Hashing, s: System, pc: Pc)
    requires PcInv(h, s, pc) && ClaimOf(pc).Some?
    ensures ClaimInv(s, ClaimOf(pc).value)
  {
    hide Keys;
  }

  lemma OnePayloadOneRow(rows: map<ShadowId, ShadowRow>, next: ShadowId, i: ShadowId, j: ShadowId)
    requires UniqueRows(rows, next) && i in rows && j in rows && rows[i].payload == rows[j].payload
    ensures i == j
  {
    assert Matches(rows[i], Request(rows[j].key, rows[j].payload));
  }

  // ------------------------------------------------------- refused requests

  /** The request goes no further than the select. */
  predicate Refused(h: Hashing, r: Request, pc: Pc) {
    pc == GiveBack(h, r, Conflict("SHADOW_IDENTITY_CONFLICT")) || (pc.Refusing? && pc.request == r)
  }

  /** A select ends in a conflict exactly if a row with the key or the case of the request carries another payload. */
  lemma SelectRefusesIff(h: Hashing, rows: map<ShadowId, ShadowRow>, next: ShadowId, r: Request)
    requires UniqueRows(rows, next)
    ensures Refused(h, r, Selected(h, rows, r))
            <==> exists i :: i in rows && Matches(rows[i], r) && rows[i].payload != r.payload
  {
    var found := Matching(rows, r);
    hide Keys, Matches;
    if |found| > 1 {
      TwoMatchesDiffer(rows, next, r);
    } else if found != {} {
      var id := TheOne(found);
      assert id in found;
      assert forall i | i in rows && Matches(rows[i], r) :: i in found;
    } else {
      assert forall i | i in rows && Matches(rows[i], r) :: i in found;
    }
  }

  lemma TwoMatchesDiffer(rows: map<ShadowId, ShadowRow>, next: ShadowId, r: Request)
    requires UniqueRows(rows, next) && |Matching(rows, r)| > 1
    ensures exists i :: i in rows && Matches(rows[i], r) && rows[i].payload != r.payload
  {
    var found := Matching(rows, r);
    var i :| i in found;
    assert |found - {i}| >= 1;
    var j :| j in found - {i};
    hide Matches;
    if rows[i].payload == r.payload && rows[j].payload == r.payload {
      OnePayloadOneRow(rows, next, i, j);
    }
  }

  /** In every reachable state the select of a waiting request is refused in exactly that case. */
  lemma RequestIsRefusedIff(h: Hashing, run: seq<Step>, c: CallerId, choice: Choice)
    requires KindsApart(h) && c in After(h, run).callers && After(h, run).callers[c].Selecting?
    ensures var s, r := After(h, run), After(h, run).callers[c].request;
            var next := Apply(h, s, Advance(c, choice));
            && c in next.callers
            && (Refused(h, r, next.callers[c])
                <==> exists i :: i in s.rows && Matches(s.rows[i], r) && s.rows[i].payload != r.payload)
  {
    RunKeepsInv(h, run);
    hide After, LockInv, PcInv, NestedRows, Keys, Matches, Matching, Refused;
    SelectRefusesIff(h, After(h, run).rows, After(h, run).nextRow, After(h, run).callers[c].request);
    hide UniqueRows, Selected;
  }

  /** A key once stored in a row refuses every later request of its tenant with another payload. */
  lemma StoredKeysBind(h: Hashing, run: seq<Step>, more: seq<Step>, i: ShadowId, c: CallerId, choice: Choice)
    requires KindsApart(h) && i in After(h, run).rows
    requires c in After(h, run + more).callers && After(h, run + more).callers[c].Selecting?
    requires var r, row := After(h, run + more).callers[c].request, After(h, run).rows[i];
             r.payload.tenant == row.payload.tenant && r.key == row.key && r.payload != row.payload
    ensures var next := Apply(h, After(h, run + more), Advance(c, choice));
            c in next.callers && Refused(h, After(h, run + more).callers[c].request, next.callers[c])
  {
    RequestIsRefusedIff(h, run + more, c, choice);
    RunsMoveOn(h, run, more);
    hide After, Apply, Keys, Refused;
    assert Matches(After(h, run + more).rows[i], After(h, run + more).callers[c].request);
  }

  // ------------------------------------------------------------- completion

  function Count(events: seq<Event>, e: Event): nat {
    if events == [] then 0 else Count(events[..|events| - 1], e) + if events[|events| - 1] == e then 1 else 0
  }

  lemma CountAppend(events: seq<Event>, e: Event, x: Event)
    ensures Count(events + [e], x) == Count(events, x) + if e == x then 1 else 0
  {
    assert (events + [e])[..|events|] == events;
  }

  ghost predicate CompletedOnce(s: System, id: ShadowId) {
    Count(s.events, Event(id, SHADOW_RUN_COMPLETED)) == if id in s.rows && s.rows[id].status.Finished? then 1 else 0
  }

  lemma AdvanceCounts(h: Hashing, s: System, c: CallerId, choice: Choice, id: ShadowId)
    requires RowsInv(s) && CanAdvance(h, s, c) && PcInv(h, s, s.callers[c]) && CompletedOnce(s, id)
    ensures CompletedOnce(Advanced(h, s, c, choice), id)
  {
    hide RowsInv, Matching, Selected, Inserted, Nested, Completed, HoldsBoth, MovesOnlyRows, Keys, Chosen, GiveBack, CompletedOnce;
    var pc, s' := s.callers[c], Advanced(h, s, c, choice);
    match pc
    case Refusing(_, i) => LogCounts(s, s', Event(i, SHADOW_REQUEST_REJECTED), id);
    case Announcing(claim) => LogCounts(s, s', Event(claim.id, SHADOW_RUN_STARTED), id);
    case Inserting(r) => InsertCounts(h, s, c, r, id);
    case Claimed(claim) =>
      NestTables(h, s, c, claim);
      CountsDependOnRows(s, s', id);
    case Completing(claim, i, output) => CompletionCounts(h, s, c, claim, i, output, id);
    case _ => CountsDependOnRows(s, s', id);
  }

  lemma LogCounts(s: System, s': System, e: Event, id: ShadowId)
    requires CompletedOnce(s, id) && e.eventType != SHADOW_RUN_COMPLETED && s'.rows == s.rows && s'.events == s.events + [e]
    ensures CompletedOnce(s', id)
  {
    CountAppend(s.events, e, Event(id, SHADOW_RUN_COMPLETED));
  }

  lemma InsertCounts(h: Hashing, s: System, c: CallerId, r: Request, id: ShadowId)
    requires RowsInv(s) && CompletedOnce(s, id) && c in s.callers && Matching(s.rows, r) == {}
    ensures CompletedOnce(Inserted(h, s, c, r), id)
  {
    InsertSucceeds(h, s, c, r);
    InsertTables(h, s, c, r);
    hide RowsInv, Inserted, Matching;
  }

  lemma CompletionCounts(h: Hashing, s: System, c: CallerId, claim: Claim, i: InvestigationId, output: string, id: ShadowId)
    requires CompletedOnce(s, id) && c in s.callers && ClaimInv(s, claim)
    ensures CompletedOnce(Completed(h, s, c, claim, i, output), id)
  {
    CompleteSucceeds(h, s, c, claim, i, output);
    CountAppend(s.events, Event(claim.id, SHADOW_RUN_COMPLETED), Event(id, SHADOW_RUN_COMPLETED));
    hide Completed;
  }

  /** Exactly once across restarts: a run is logged as completed once iff it has finished, and never twice. */
  lemma {:induction false} CompletionHappensOnce(h: Hashing, run: seq<Step>, id: ShadowId)
    requires KindsApart(h)
    ensures CompletedOnce(After(h, run), id)
  {
    hide Inv, CompletedOnce, Advanced;
    if run == [] {
      assert CompletedOnce(Start(), id) by { NothingIsCompleted(id); }
    } else {
      var s := After(h, Before(run));
      CompletionHappensOnce(h, Before(run), id);
      RunKeepsInv(h, Before(run));
      match Last(run)
      case Advance(c, choice) =>
        if CanAdvance(h, s, c) {
          PcHolds(h, s, c);
          AdvanceCounts(h, s, c, choice, id);
        }
      case _ => CountsDependOnRows(s, After(h, run), id);
    }
  }

  lemma NothingIsCompleted(id: ShadowId)
    ensures CompletedOnce(Start(), id)
  {
  }

  lemma PcHolds(h: Hashing, s: System, c: CallerId)
    requires Inv(h, s) && c in s.callers
    ensures RowsInv(s) && PcInv(h, s, s.callers[c])
  {
  }

  lemma CountsDependOnRows(a: System, b: System, id: ShadowId)
    requires CompletedOnce(a, id) && b.rows == a.rows && b.events == a.events
    ensures CompletedOnce(b, id)
  {
  }

  /** Every caller that is given a result of a run is given the same one, and it never changes again. */
  lemma AnswersAgree(h: Hashing, run: seq<Step>, more: seq<Step>, c: CallerId)
    requires KindsApart(h) && c in After(h, run).callers && After(h, run).callers[c].Done?
    ensures var answer, a, b := After(h, run).callers[c].answer, After(h, run), After(h, run + more);
            answer.Fresh? || answer.Replay? ==>
              && answer.id in a.rows && a.rows[answer.id].status.Finished?
              && answer.id in b.rows && b.rows[answer.id] == a.rows[answer.id]
  {
    hide LockInv, RowsInv, Keys;
    RunKeepsInv(h, run);
    RunsMoveOn(h, run, more);
    assert PcInv(h, After(h, run), After(h, run).callers[c]);
  }

  /** A restarted claim goes on with the investigation of the first attempt, and with no other run's. */
  lemma RestartsShareTheInvestigation(h: Hashing, run: seq<Step>, more: seq<Step>, c: CallerId, d: CallerId)
    requires KindsApart(h) && c in After(h, run).callers && d in After(h, run + more).callers
    requires After(h, run).callers[c].Completing? && After(h, run + more).callers[d].Completing?
    ensures var a, b := After(h, run).callers[c], After(h, run + more).callers[d];
            a.claim.id == b.claim.id <==> a.investigation == b.investigation
  {
    RunKeepsInv(h, run);
    RunKeepsInv(h, run + more);
    RunsMoveOn(h, run, more);
    var s, s' := After(h, run), After(h, run + more);
    PcHolds(h, s, c);
    PcHolds(h, s', d);
    var a, b := s.callers[c], s'.callers[d];
    CompleterKnows(h, s, a);
    CompleterKnows(h, s', b);
    hide Inv, After, PcInv, RowsInv, ShadowKey, NestKey, Rely;
    NestKeysStay(s, s', NestKey(a.claim));
    OneKeyOneInvestigation(s', NestKey(a.claim), NestKey(b.claim));
    if NestKey(a.claim) == NestKey(b.claim) {
      ShadowKeyIsInjective(a.claim, b.claim);
    }
    if a.claim.id == b.claim.id {
      SameRowSameTenant(s, s', a.claim, b.claim);
    }
  }

  lemma CompleterKnows(h: Hashing, s: System, pc: Pc)
    requires PcInv(h, s, pc) && pc.Completing?
    ensures ClaimInv(s, pc.claim)
    ensures NestKey(pc.claim) in s.intakes && s.intakes[NestKey(pc.claim)].investigation == pc.investigation
  {
    hide Keys, Digits;
  }

  lemma NestKeysStay(s: System, s': System, k: IntakeKey)
    requires Rely(s, s') && k in s.intakes
    ensures k in s'.intakes && s'.intakes[k] == s.intakes[k]
  {
  }

  lemma OneKeyOneInvestigation(s: System, k: IntakeKey, l: IntakeKey)
    requires RowsInv(s) && k in s.intakes && l in s.intakes
    ensures s.intakes[k].investigation == s.intakes[l].investigation <==> k == l
  {
    hide UniqueRows, Digits;
  }

  /** Different shadow runs have different nested keys. */
  lemma ShadowKeyIsInjective(a: Claim, b: Claim)
    requires NestKey(a) == NestKey(b)
    ensures a.id == b.id && a.request.payload.tenant == b.request.payload.tenant
  {
    hide Digits;
    var x, y := "shadow:" + Digits(a.id), "shadow:" + Digits(b.id);
    assert x[7..] == Digits(a.id) && y[7..] == Digits(b.id);
    DigitsAreInjective(a.id, b.id);
  }

  lemma SameRowSameTenant(s: System, s': System, a: Claim, b: Claim)
    requires Rely(s, s') && ClaimInv(s, a) && ClaimInv(s', b) && a.id == b.id
    ensures NestKey(a) == NestKey(b)
  {
    hide Digits;
  }

  // --------------------------------------------------------------- deadlock

  /** `c` blocks on a key that `d` holds. */
  predicate WaitsFor(h: Hashing, s: System, c: CallerId, d: CallerId) {
    && c in s.callers && WaitsOn(h, s.callers[c]).Some?
    && WaitsOn(h, s.callers[c]).value in s.locks && s.locks[WaitsOn(h, s.callers[c]).value] == d
  }

  ghost predicate IsWaitChain(h: Hashing, s: System, cs: seq<CallerId>) {
    forall i | 0 <= i < |cs| - 1 :: WaitsFor(h, s, cs[i], cs[i + 1])
  }

  /** Shadow locks come before tool locks, and each kind in key order. */
  predicate Lower(h: Hashing, a: Pc, b: Pc) {
    && WaitsOn(h, a).Some? && WaitsOn(h, b).Some?
    && ((a.Locking? && b.WantsTool?)
        || (a.Locking? && b.Locking? && WaitsOn(h, a).value < WaitsOn(h, b).value)
        || (a.WantsTool? && b.WantsTool? && WaitsOn(h, a).value < WaitsOn(h, b).value))
  }

  /** Whoever is waited for, if it waits too, waits for a strictly higher key. */
  lemma WaitingClimbs(h: Hashing, s: System, c: CallerId, d: CallerId)
    requires KindsApart(h) && Inv(h, s) && WaitsFor(h, s, c, d)
    ensures d in s.callers
    ensures WaitsOn(h, s.callers[d]).Some? ==> Lower(h, s.callers[c], s.callers[d])
  {
    hide RowsInv;
    var pc := s.callers[c];
    var k := WaitsOn(h, pc).value;
    assert Holds(h, s.callers[d], k);
    assert PcInv(h, s, s.callers[d]);
    HigherThanHeld(h, s, pc, s.callers[d], k);
  }

  lemma HigherThanHeld(h: Hashing, s: System, a: Pc, b: Pc, k: int)
    requires KindsApart(h) && PcInv(h, s, b) && WaitsOn(h, a) == Some(k) && Holds(h, b, k)
    ensures WaitsOn(h, b).Some? ==> Lower(h, a, b)
  {
    HeldShadowKeys(h, s, b);
    if a.Locking? {
      KeysAreSorted(h, a.request);
    }
    if b.Locking? {
      KeysAreSorted(h, b.request);
    }
    hide Keys, AnswerInv, ClaimInv, NestInv;
  }

  lemma LowerIsTransitive(h: Hashing, a: Pc, b: Pc, c: Pc)
    requires Lower(h, a, b) && Lower(h, b, c)
    ensures Lower(h, a, c) && !Lower(h, a, a)
  {
    hide Keys;
  }

  lemma {:induction false} ChainsClimb(h: Hashing, s: System, cs: seq<CallerId>)
    requires KindsApart(h) && Inv(h, s) && IsWaitChain(h, s, cs) && |cs| >= 2
    ensures cs[0] in s.callers && cs[|cs| - 1] in s.callers
    ensures WaitsOn(h, s.callers[cs[|cs| - 1]]).Some? ==> Lower(h, s.callers[cs[0]], s.callers[cs[|cs| - 1]])
    decreases |cs|
  {
    hide Inv, Lower, WaitsOn;
    var n := |cs| - 1;
    assert WaitsFor(h, s, cs[n - 1], cs[n]);
    WaitingClimbs(h, s, cs[n - 1], cs[n]);
    if n >= 2 {
      ChainsClimb(h, s, cs[..n]);
      if WaitsOn(h, s.callers[cs[n]]).Some? {
        LowerIsTransitive(h, s.callers[cs[0]], s.callers[cs[n - 1]], s.callers[cs[n]]);
      }
    }
  }

  /** The wait-for graph of any number of callers is acyclic. */
  lemma NoDeadlock(h: Hashing, run: seq<Step>, cs: seq<CallerId>)
    requires KindsApart(h) && IsWaitChain(h, After(h, run), cs) && |cs| >= 2
    ensures cs[0] != cs[|cs| - 1]
  {
    RunKeepsInv(h, run);
    var s := After(h, run);
    ChainsClimb(h, s, cs);
    hide Inv, WaitsOn;
    if cs[0] == cs[|cs| - 1] {
      assert WaitsFor(h, s, cs[0], cs[1]);
      NotLower(h, s.callers[cs[0]]);
    }
  }

  lemma NotLower(h: Hashing, a: Pc)
    ensures !Lower(h, a, a)
  {
  }

  ghost function Above(h: Hashing, s: System, c: CallerId): set<CallerId>
    requires c in s.callers
  {
    set d | d in s.callers && Lower(h, s.callers[c], s.callers[d])
  }

  /** Somebody can always move: behind every caller that is not done there is a chain to one that can step. */
  lemma {:induction false} SomebodyCanMove(h: Hashing, run: seq<Step>, c: CallerId) returns (cs: seq<CallerId>)
    requires KindsApart(h) && c in After(h, run).callers && !After(h, run).callers[c].Done?
    ensures cs != [] && cs[0] == c && IsWaitChain(h, After(h, run), cs)
    ensures CanAdvance(h, After(h, run), cs[|cs| - 1])
    decreases Above(h, After(h, run), c)
  {
    var s := After(h, run);
    RunKeepsInv(h, run);
    hide Inv, WaitsOn, Lower, After, Keys;
    if CanAdvance(h, s, c) {
      cs := [c];
    } else {
      var d := s.locks[WaitsOn(h, s.callers[c]).value];
      WaitingClimbs(h, s, c, d);
      HoldersAreAlive(h, s, c, d);
      if CanAdvance(h, s, d) {
        cs := [c, d];
      } else {
        AboveShrinks(h, s, c, d);
        var rest := SomebodyCanMove(h, run, d);
        cs := [c] + rest;
      }
    }
  }

  lemma HoldersAreAlive(h: Hashing, s: System, c: CallerId, d: CallerId)
    requires Inv(h, s) && WaitsFor(h, s, c, d)
    ensures d in s.callers && !s.callers[d].Done?
  {
    hide RowsInv, PcInv, WaitsOn, Holds;
    var k := WaitsOn(h, s.callers[c]).value;
    assert s.locks[k] == d;
    assert d in s.callers && Holds(h, s.callers[d], k);
    DoneHoldsNothing(h, s.callers[d], k);
  }

  lemma DoneHoldsNothing(h: Hashing, pc: Pc, k: int)
    requires Holds(h, pc, k)
    ensures !pc.Done?
  {
    hide Keys;
  }

  lemma AboveShrinks(h: Hashing, s: System, c: CallerId, d: CallerId)
    requires c in s.callers && d in s.callers && Lower(h, s.callers[c], s.callers[d])
    ensures Above(h, s, d) < Above(h, s, c)
  {
    hide Lower, WaitsOn;
    forall e | e in Above(h, s, d)
      ensures e in Above(h, s, c)
    {
      LowerIsTransitive(h, s.callers[c], s.callers[d], s.callers[e]);
    }
    NotLower(h, s.callers[d]);
    assert d in Above(h, s, c) && d !in Above(h, s, d);
  }

  // ------------------------------------------------------- lock discipline

  /** The bound on what others do, as a lock holder sees it: rows change only under their own locks. */
  lemma RowsChangeUnderTheirLocks(h: Hashing, s: System, step: Step, i: ShadowId)
    requires KindsApart(h) && Inv(h, s)
    requires i in Apply(h, s, step).rows && (i !in s.rows || Apply(h, s, step).rows[i] != s.rows[i])
    ensures var row := Apply(h, s, step).rows[i];
            && step.Advance?
            && h(CaseLock(row.payload)) in s.locks && s.locks[h(CaseLock(row.payload))] == step.caller
            && (i !in s.rows ==>
                  var k := h(ForKey(row.payload.tenant, row.key)); k in s.locks && s.locks[k] == step.caller)
  {
    hide RowsInv, LockInv, PcInv, Inserted, Nested, Completed, Keys, KeyLock, CaseLock;
    assert step.Advance? && CanAdvance(h, s, step.caller);
    var c := step.caller;
    PcHolds(h, s, c);
    if !TouchesTables(s.callers[c]) {
      OtherStepKeepsTables(h, s, c, step.choice);
      assert false;
    } else {
      TableWriterHoldsLocks(h, s, c, step.choice, i);
    }
  }

  lemma TableWriterHoldsLocks(h: Hashing, s: System, c: CallerId, choice: Choice, i: ShadowId)
    requires LockInv(h, s) && RowsInv(s) && CanAdvance(h, s, c) && TouchesTables(s.callers[c]) && PcInv(h, s, s.callers[c])
    requires var rows := Advanced(h, s, c, choice).rows; i in rows && (i !in s.rows || rows[i] != s.rows[i])
    ensures var row := Advanced(h, s, c, choice).rows[i];
            && h(CaseLock(row.payload)) in s.locks && s.locks[h(CaseLock(row.payload))] == c
            && (i !in s.rows ==>
                  var k := h(ForKey(row.payload.tenant, row.key)); k in s.locks && s.locks[k] == c)
  {
    hide RowsInv, LockInv, Inserted, Nested, Completed, Keys, Matching;
    match s.callers[c]
    case Inserting(r) =>
      InsertSucceeds(h, s, c, r);
      InsiderHoldsLocks(h, s, c);
    case Completing(claim, investigation, output) =>
      CompleteSucceeds(h, s, c, claim, investigation, output);
      InsiderHoldsLocks(h, s, c);
    case Claimed(claim) => NestTables(h, s, c, claim);
  }

  lemma InsiderHoldsLocks(h: Hashing, s: System, c: CallerId)
    requires LockInv(h, s) && c in s.callers && Inside(s.callers[c])
    ensures var r := RequestOf(s.callers[c]).value;
            && h(KeyLock(r)) in s.locks && s.locks[h(KeyLock(r))] == c
            && h(CaseLock(r.payload)) in s.locks && s.locks[h(CaseLock(r.payload))] == c
  {
    var r := RequestOf(s.callers[c]).value;
    KeysAreSorted(h, r);
    InsideHoldsBoth(h, s.callers[c]);
    hide Keys, ShadowKeysHeld, RequestOf;
    assert Holds(h, s.callers[c], h(KeyLock(r))) && Holds(h, s.callers[c], h(CaseLock(r.payload)));
  }

  // ------------------------------------------------------- keys alone do not bind

  lemma OneMore(h: Hashing, run: seq<Step>, step: Step)
    ensures After(h, run + [step]) == Apply(h, After(h, run), step)
  {
    assert (run + [step])[..|run|] == run;
  }

  /** Where a lone processor stands once it has both locks. */
  lemma LockAlone(h: Hashing, run: seq<Step>, c: CallerId, r: Request) returns (more: seq<Step>)
    requires After(h, run).callers == map[] && After(h, run).locks == map[]
    ensures var s, s' := After(h, run), After(h, run + more);
            && s'.callers == map[c := Selecting(r)] && s'.rows == s.rows && s'.nextRow == s.nextRow
            && s'.intakes == s.intakes && s'.nextInvestigation == s.nextInvestigation
            && forall k | k in Keys(h, r) :: k in s'.locks && s'.locks[k] == c
  {
    var keys := Keys(h, r);
    KeysAreSorted(h, r);
    var step := Advance(c, Raise);
    hide After, Keys, Selected, Matching, Inserted, Nested, Completed, Chosen, GiveBack;
    OneMore(h, run, Process(c, r));
    OneMore(h, run + [Process(c, r)], step);
    if |keys| == 1 {
      more := [Process(c, r), step];
      assert run + more == run + [Process(c, r)] + [step];
    } else {
      OneMore(h, run + [Process(c, r)] + [step], step);
      more := [Process(c, r), step, step];
      assert run + more == run + [Process(c, r)] + [step] + [step];
    }
  }

  lemma SelectStep(h: Hashing, s: System, c: CallerId, r: Request)
    requires c in s.callers && s.callers[c] == Selecting(r)
    ensures Apply(h, s, Advance(c, Raise)) == At(s, c, Selected(h, s.rows, r))
    ensures Matching(s.rows, r) == {} ==> Selected(h, s.rows, r) == Inserting(r)
  {
    hide Keys, Matching;
  }

  lemma InsertStep(h: Hashing, s: System, c: CallerId, r: Request)
    requires c in s.callers && s.callers[c] == Inserting(r) && Matching(s.rows, r) == {}
    ensures Apply(h, s, Advance(c, Raise))
            == At(s.(rows := s.rows[s.nextRow := ShadowRow(r.key, r.payload, Started)], nextRow := s.nextRow + 1),
                  c, Announcing(Claim(r, s.nextRow)))
  {
    hide Keys, Matching;
  }

  lemma SelectedAlone(h: Hashing, rows: map<ShadowId, ShadowRow>, r: Request, id: ShadowId)
    requires Matching(rows, r) == {id} && rows[id].payload == r.payload && rows[id].status == Started
    ensures Selected(h, rows, r) == Claimed(Claim(r, id))
  {
    hide Keys, Matching;
    assert |Matching(rows, r)| == 1;
  }

  /** A lone processor claims the one started row of its payload, or a new row if nothing matches. */
  lemma ClaimAlone(h: Hashing, run: seq<Step>, c: CallerId, r: Request, id: ShadowId) returns (more: seq<Step>)
    requires After(h, run).callers == map[] && After(h, run).locks == map[]
    requires var s := After(h, run);
             if Matching(s.rows, r) == {} then id == s.nextRow
             else Matching(s.rows, r) == {id} && s.rows[id].payload == r.payload && s.rows[id].status == Started
    ensures var s, s' := After(h, run), After(h, run + more);
            && s'.callers == map[c := if id in Matching(s.rows, r) then Claimed(Claim(r, id)) else Announcing(Claim(r, id))]
            && s'.rows == (if id in Matching(s.rows, r) then s.rows else s.rows[id := ShadowRow(r.key, r.payload, Started)])
            && s'.nextRow == (if id in Matching(s.rows, r) then s.nextRow else s.nextRow + 1)
            && s'.intakes == s.intakes && s'.nextInvestigation == s.nextInvestigation
            && forall k | k in Keys(h, r) :: k in s'.locks && s'.locks[k] == c
  {
    hide After, Apply, Keys, Matching, Selected;
    var s := After(h, run);
    var step := Advance(c, Raise);
    var taken := LockAlone(h, run, c, r);
    OneMore(h, run + taken, step);
    SelectStep(h, After(h, run + taken), c, r);
    if Matching(s.rows, r) == {} {
      OneMore(h, run + taken + [step], step);
      InsertStep(h, After(h, run + taken + [step]), c, r);
      more := taken + [step, step];
      assert run + more == run + taken + [step] + [step];
    } else {
      SelectedAlone(h, s.rows, r, id);
      more := taken + [step];
      assert run + more == run + taken + [step];
    }
  }

  lemma CrashAlone(h: Hashing, run: seq<Step>, c: CallerId)
    requires KindsApart(h) && After(h, run).callers.Keys == {c}
    ensures var s, s' := After(h, run), After(h, run + [Crash(c)]);
            s'.callers == map[] && s'.locks == map[] && s'.rows == s.rows && s'.nextRow == s.nextRow
  {
    OneMore(h, run, Crash(c));
    RunKeepsInv(h, run + [Crash(c)]);
    hide RowsInv, PcInv, After, Holds;
    assert After(h, run + [Crash(c)]).callers.Keys == {};
    NoCallersNoLocks(h, After(h, run + [Crash(c)]));
  }

  lemma NoCallersNoLocks(h: Hashing, s: System)
    requires LockInv(h, s) && s.callers == map[]
    ensures s.locks == map[]
  {
    hide Holds;
    assert forall k | k in s.locks :: s.locks[k] in s.callers;
    assert s.locks.Keys == {};
  }

  /**
   One tenant, one idempotency key, two shadow runs: a key that found its run through the case identity is stored
   nowhere, so with another case it claims a new run instead of raising a conflict.
   */
  lemma KeyAloneDoesNotIdentify(h: Hashing, first: string, shared: string, p: Payload, q: Payload)
      returns (run: seq<Step>, more: seq<Step>)
    requires KindsApart(h) && first != shared && p.tenant == q.tenant && CaseLock(p) != CaseLock(q)
    ensures var a, b := After(h, run), After(h, run + more);
            && 1 in a.callers && ClaimOf(a.callers[1]) == Some(Claim(Request(shared, p), 0))
            && 2 in b.callers && ClaimOf(b.callers[2]) == Some(Claim(Request(shared, q), 1))
  {
    hide After, Keys, Matching;
    assert After(h, []) == Start() by { NothingYet(h); }
    NoneMatch(map[], Request(first, p));
    var opening := ClaimAlone(h, [], 0, Request(first, p), 0);
    assert [] + opening == opening;
    CrashAlone(h, opening, 0);
    var quiet := opening + [Crash(0)];
    var row := ShadowRow(first, p, Started);
    OnlyMatch(row, Request(shared, p));
    OnlyMatch(row, Request(shared, q));
    var again := ClaimAlone(h, quiet, 1, Request(shared, p), 0);
    run := quiet + again;
    CrashAlone(h, run, 1);
    var late := ClaimAlone(h, run + [Crash(1)], 2, Request(shared, q), 1);
    more := [Crash(1)] + late;
    assert run + more == run + [Crash(1)] + late;
  }

  lemma NothingYet(h: Hashing)
    ensures After(h, []) == Start()
  {
  }

  lemma NoneMatch(rows: map<ShadowId, ShadowRow>, r: Request)
    requires rows == map[]
    ensures Matching(rows, r) == {}
  {
  }

  lemma OnlyMatch(row: ShadowRow, r: Request)
    ensures Matching(map[0 := row], r) == if Matches(row, r) then {0} else {}
  {
  }

  /** And kinds must be apart: should a tool's key collide with a shadow key, its own caller waits for itself. */
  lemma CollidingKindsDeadlock(h: Hashing, r: Request, t: Tool) returns (run: seq<Step>)
    requires h(ForTool(0, t)) in Keys(h, r)
    ensures WaitsFor(h, After(h, run), 0, 0)
  {
    hide After, Apply, Keys, Matching;
    assert After(h, []) == Start() by { NothingYet(h); }
    NoneMatch(map[], r);
    var claimed := ClaimAlone(h, [], 0, r, 0);
    assert [] + claimed == claimed;
    var step := Advance(0, UseTool(t));
    var s0 := After(h, claimed);
    OneMore(h, claimed, step);
    AnnounceStep(h, s0, 0, Claim(r, 0), UseTool(t));
    var s1 := After(h, claimed + [step]);
    OneMore(h, claimed + [step], step);
    FirstNestStep(h, s1, 0, Claim(r, 0), UseTool(t));
    var s2 := After(h, claimed + [step] + [step]);
    OneMore(h, claimed + [step] + [step], step);
    WantStep(h, s2, 0, Some(Claim(r, 0)), 0, t);
    run := claimed + [step] + [step] + [step];
    var k := h(ForTool(0, t));
    assert k in Keys(h, r);
  }

  lemma AnnounceStep(h: Hashing, s: System, c: CallerId, claim: Claim, choice: Choice)
    requires c in s.callers && s.callers[c] == Announcing(claim)
    ensures var s' := Apply(h, s, Advance(c, choice));
            && c in s'.callers && s'.callers[c] == Claimed(claim) && s'.locks == s.locks
            && s'.intakes == s.intakes && s'.nextInvestigation == s.nextInvestigation
  {
    hide Keys;
  }

  lemma FirstNestStep(h: Hashing, s: System, c: CallerId, claim: Claim, choice: Choice)
    requires c in s.callers && s.callers[c] == Claimed(claim) && s.intakes == map[]
    ensures var s' := Apply(h, s, Advance(c, choice));
            c in s'.callers && s'.callers[c] == Working(Some(claim), s.nextInvestigation) && s'.locks == s.locks
  {
    hide Keys, GiveBack, HoldsBoth, MovesOnlyRows, Digits;
  }

  lemma WantStep(h: Hashing, s: System, c: CallerId, nest: Option<Claim>, i: InvestigationId, t: Tool)
    requires c in s.callers && s.callers[c] == Working(nest, i)
    ensures var s' := Apply(h, s, Advance(c, UseTool(t)));
            c in s'.callers && s'.callers[c] == WantsTool(nest, i, t) && s'.locks == s.locks
  {
    hide Keys;
  }
}
