/**
 The nested intake of a shadow run shares its key table with every other intake. Exactly when it is refused, whose
 investigation it is given, and which started shadow runs can still finish.
 */
module ShadowNesting {
  import opened Wrappers
  import opened Identity
  import opened ShadowSystem
  import opened ShadowInvariant
  import opened ShadowTheorems

  /** The key is bound to a payload other than that of the shadow run. */
  predicate BoundElsewhere(s: System, k: IntakeKey, input: string) {
    k in s.intakes && s.intakes[k].input != input
  }

  /** Some plain intake took the key first, with another payload. */
  ghost predicate TakenByAPlainIntake(h: Hashing, run: seq<Step>, k: IntakeKey, input: string) {
    exists n :: 0 <= n < |run| && PlainBinding(h, run, n, k) && run[n].input != input
  }

  /** Step `n` is a plain intake under the key, and the first intake of all under it. */
  ghost predicate PlainBinding(h: Hashing, run: seq<Step>, n: nat, k: IntakeKey)
    requires n < |run|
  {
    && run[n].Submit? && (run[n].tenant, run[n].key) == k && 1 <= |run[n].key| <= 200
    && k !in After(h, run[..n]).intakes && run[n].caller !in After(h, run[..n]).callers
  }

  /** Step `n` is the nested intake of a claim with this key, and the first intake of all under it. */
  ghost predicate NestedBinding(h: Hashing, run: seq<Step>, n: nat, k: IntakeKey)
    requires n < |run|
  {
    var s := After(h, run[..n]);
    && run[n].Advance? && k !in s.intakes
    && run[n].caller in s.callers && s.callers[run[n].caller].Claimed? && NestKey(s.callers[run[n].caller].claim) == k
  }

  // --------------------------------------------------------- who binds a key

  lemma AdvanceBinds(h: Hashing, s: System, c: CallerId, choice: Choice, k: IntakeKey)
    requires CanAdvance(h, s, c) && k !in s.intakes && k in Advanced(h, s, c, choice).intakes
    ensures s.callers[c].Claimed? && NestKey(s.callers[c].claim) == k
    ensures Advanced(h, s, c, choice).intakes[k].input == s.callers[c].claim.request.payload.input
    ensures Advanced(h, s, c, choice).intakes[k].shadow
  {
    hide Keys, Matching, Selected, Inserted, Nested, Completed, Chosen, GiveBack, HoldsBoth, MovesOnlyRows, NestKey;
    match s.callers[c]
    case Inserting(r) => InsertTables(h, s, c, r);
    case Claimed(claim) => NestTables(h, s, c, claim);
    case Completing(claim, i, output) => CompleteTables(h, s, c, claim, i, output);
    case _ =>
  }

  lemma StepBinds(h: Hashing, s: System, step: Step, k: IntakeKey)
    requires k !in s.intakes && k in Apply(h, s, step).intakes
    ensures step.Submit? || step.Advance?
    ensures step.Submit? ==>
              && (step.tenant, step.key) == k && 1 <= |step.key| <= 200 && step.caller !in s.callers
              && Apply(h, s, step).intakes[k].input == step.input && !Apply(h, s, step).intakes[k].shadow
    ensures step.Advance? ==>
              && step.caller in s.callers && s.callers[step.caller].Claimed? && NestKey(s.callers[step.caller].claim) == k
              && Apply(h, s, step).intakes[k].input == s.callers[step.caller].claim.request.payload.input
              && Apply(h, s, step).intakes[k].shadow
  {
    hide Advanced, NestKey;
    if step.Advance? && CanAdvance(h, s, step.caller) {
      AdvanceBinds(h, s, step.caller, step.choice, k);
    }
  }

  /** A bound key was bound by one step, plain or nested, and carries that step's payload and mode ever since. */
  lemma {:induction false} EveryBindingHasItsStep(h: Hashing, run: seq<Step>, k: IntakeKey) returns (n: nat)
    requires KindsApart(h) && k in After(h, run).intakes
    ensures n < |run|
    ensures PlainBinding(h, run, n, k) || NestedBinding(h, run, n, k)
    ensures var x := After(h, run).intakes[k];
            && (PlainBinding(h, run, n, k) ==> x.input == run[n].input && !x.shadow)
            && (NestedBinding(h, run, n, k) ==>
                  x.input == After(h, run[..n]).callers[run[n].caller].claim.request.payload.input && x.shadow)
  {
    hide Apply, NestKey, Inv;
    var before := Before(run);
    if k in After(h, before).intakes {
      n := EveryBindingHasItsStep(h, before, k);
      assert before[..n] == run[..n] && before[n] == run[n];
      RunKeepsInv(h, before);
      StepKeepsInv(h, After(h, before), Last(run));
    } else {
      n := |run| - 1;
      assert run[..n] == before && run[n] == Last(run);
      StepBinds(h, After(h, before), Last(run), k);
    }
  }

  // ------------------------------------------------------------ the refusal

  /** The nested intake is refused exactly if its key is bound elsewhere; else it goes on with the key's investigation. */
  lemma NestedStep(h: Hashing, s: System, c: CallerId, choice: Choice)
    requires c in s.callers && s.callers[c].Claimed?
    ensures var claim := s.callers[c].claim;
            var next := Apply(h, s, Advance(c, choice));
            && c in next.callers
            && (next.callers[c] == GiveBack(h, claim.request, Conflict("IDEMPOTENCY_KEY_CONFLICT"))
                <==> BoundElsewhere(s, NestKey(claim), claim.request.payload.input))
            && (!BoundElsewhere(s, NestKey(claim), claim.request.payload.input) ==>
                  NestKey(claim) in next.intakes
                  && next.callers[c] == Working(Some(claim), next.intakes[NestKey(claim)].investigation))
  {
    hide Keys, NestKey, HoldsBoth, MovesOnlyRows;
  }

  lemma NestedStepBinds(h: Hashing, s: System, c: CallerId, choice: Choice)
    requires c in s.callers && s.callers[c].Claimed?
    ensures var k := NestKey(s.callers[c].claim);
            var next := Apply(h, s, Advance(c, choice));
            && k in next.intakes
            && (if k in s.intakes then next.intakes[k] == s.intakes[k] else next.intakes[k].shadow)
  {
    hide Keys, NestKey, HoldsBoth, MovesOnlyRows, GiveBack;
  }

  /** Two claims under one nested key, at any two points of a run, are on one shadow run with one payload. */
  lemma SameNestKeySamePayload(h: Hashing, run: seq<Step>, n: nat, c: CallerId, d: CallerId)
    requires KindsApart(h) && n <= |run| && c in After(h, run).callers && d in After(h, run[..n]).callers
    requires After(h, run).callers[c].Claimed? && After(h, run[..n]).callers[d].Claimed?
    requires NestKey(After(h, run).callers[c].claim) == NestKey(After(h, run[..n]).callers[d].claim)
    ensures After(h, run).callers[c].claim.request.payload == After(h, run[..n]).callers[d].claim.request.payload
  {
    hide After, NestKey, Inv, PcInv, Keys;
    assert run[..n] + run[n..] == run;
    ShadowKeyIsInjective(After(h, run).callers[c].claim, After(h, run[..n]).callers[d].claim);
    ClaimsAgreeIffSamePayload(h, run[..n], run[n..], d, c);
  }

  /**
   In every reachable state the nested intake of a claim is refused exactly if a plain intake took the key
   shadow:<id> of its tenant before it, with another payload.
   */
  lemma NestedIntakeIsRefusedIff(h: Hashing, run: seq<Step>, c: CallerId, choice: Choice)
    requires KindsApart(h) && c in After(h, run).callers && After(h, run).callers[c].Claimed?
    ensures var claim := After(h, run).callers[c].claim;
            var next := Apply(h, After(h, run), Advance(c, choice));
            && c in next.callers
            && (next.callers[c] == GiveBack(h, claim.request, Conflict("IDEMPOTENCY_KEY_CONFLICT"))
                <==> TakenByAPlainIntake(h, run, NestKey(claim), claim.request.payload.input))
  {
    hide Apply, NestKey, Inv, PcInv, Keys, GiveBack, PlainBinding, NestedBinding;
    var s := After(h, run);
    var claim := s.callers[c].claim;
    var k := NestKey(claim);
    NestedStep(h, s, c, choice);
    if k in s.intakes {
      var n := EveryBindingHasItsStep(h, run, k);
      if NestedBinding(h, run, n, k) {
        NestedBindingIsOurs(h, run, n, c);
      }
    }
    if TakenByAPlainIntake(h, run, k, claim.request.payload.input) {
      TakenStays(h, run, k, claim.request.payload.input);
    }
  }

  lemma TakenStays(h: Hashing, run: seq<Step>, k: IntakeKey, input: string)
    requires KindsApart(h) && TakenByAPlainIntake(h, run, k, input)
    ensures BoundElsewhere(After(h, run), k, input)
  {
    hide After;
    var n :| 0 <= n < |run| && PlainBinding(h, run, n, k) && run[n].input != input;
    PlainBindingStays(h, run, n, k);
  }

  lemma NestedBindingIsOurs(h: Hashing, run: seq<Step>, n: nat, c: CallerId)
    requires KindsApart(h) && c in After(h, run).callers && After(h, run).callers[c].Claimed? && n < |run|
    requires NestedBinding(h, run, n, NestKey(After(h, run).callers[c].claim))
    ensures After(h, run[..n]).callers[run[n].caller].claim.request.payload == After(h, run).callers[c].claim.request.payload
  {
    SameNestKeySamePayload(h, run, n, c, run[n].caller);
  }

  lemma PlainBindingStays(h: Hashing, run: seq<Step>, n: nat, k: IntakeKey)
    requires KindsApart(h) && n < |run| && PlainBinding(h, run, n, k)
    ensures k in After(h, run).intakes && After(h, run).intakes[k].input == run[n].input && !After(h, run).intakes[k].shadow
  {
    hide After, Inv, Keys, Apply;
    assert run[..n] + [run[n]] == run[..n + 1];
    OneMore(h, run[..n], run[n]);
    SubmitBinds(h, After(h, run[..n]), run[n], k);
    assert run[..n + 1] + run[n + 1..] == run;
    RunsMoveOn(h, run[..n + 1], run[n + 1..]);
  }

  lemma SubmitBinds(h: Hashing, s: System, step: Step, k: IntakeKey)
    requires step.Submit? && (step.tenant, step.key) == k && 1 <= |step.key| <= 200
    requires k !in s.intakes && step.caller !in s.callers
    ensures var s' := Apply(h, s, step);
            k in s'.intakes && s'.intakes[k].input == step.input && !s'.intakes[k].shadow
            && s'.rows == s.rows && s'.locks == s.locks && s'.nextRow == s.nextRow
            && s'.callers.Keys == s.callers.Keys + {step.caller}
  {
  }

  /** Without a plain intake under that key no nested intake is ever refused, and the investigation is a shadow one. */
  lemma UntakenKeysAreSafe(h: Hashing, run: seq<Step>, c: CallerId, choice: Choice)
    requires KindsApart(h) && c in After(h, run).callers && After(h, run).callers[c].Claimed?
    requires forall n | 0 <= n < |run| :: !PlainBinding(h, run, n, NestKey(After(h, run).callers[c].claim))
    ensures var claim := After(h, run).callers[c].claim;
            var next := Apply(h, After(h, run), Advance(c, choice));
            && NestKey(claim) in next.intakes && next.intakes[NestKey(claim)].shadow
            && c in next.callers && next.callers[c] == Working(Some(claim), next.intakes[NestKey(claim)].investigation)
  {
    hide NestKey, Inv, PcInv, Keys, PlainBinding, After, Apply;
    var s := After(h, run);
    NestedIntakeIsRefusedIff(h, run, c, choice);
    hide GiveBack;
    NestedStep(h, s, c, choice);
    NestedStepBinds(h, s, c, choice);
    if NestKey(s.callers[c].claim) in s.intakes {
      NestedInvestigationIsShadowIff(h, run, NestKey(s.callers[c].claim));
    }
  }

  /** The nested investigation awaits no human review exactly if no plain intake took the key first. */
  lemma NestedInvestigationIsShadowIff(h: Hashing, run: seq<Step>, k: IntakeKey)
    requires KindsApart(h) && k in After(h, run).intakes
    ensures After(h, run).intakes[k].shadow <==> forall n | 0 <= n < |run| :: !PlainBinding(h, run, n, k)
  {
    hide After, PlainBinding, NestedBinding;
    var n := EveryBindingHasItsStep(h, run, k);
    if m: nat :| m < |run| && PlainBinding(h, run, m, k) {
      PlainBindingStays(h, run, m, k);
    }
  }

  // ----------------------------------------------- which runs can still finish

  /** A started shadow run whose key is bound elsewhere never finishes. */
  lemma BlockedRunsNeverFinish(h: Hashing, run: seq<Step>, more: seq<Step>, id: ShadowId)
    requires KindsApart(h) && id in After(h, run).rows && After(h, run).rows[id].status == Started
    requires var row := After(h, run).rows[id]; BoundElsewhere(After(h, run), RowKey(row, id), row.payload.input)
    ensures id in After(h, run + more).rows && After(h, run + more).rows[id].status == Started
  {
    RunKeepsInv(h, run + more);
    RunsMoveOn(h, run, more);
    hide After, LockInv, PcInv, UniqueRows, RowKey;
    StartedOrOurs(After(h, run), After(h, run + more), id);
  }

  lemma StartedOrOurs(a: System, b: System, id: ShadowId)
    requires Rely(a, b) && RowsInv(b) && id in a.rows
    requires BoundElsewhere(a, RowKey(a.rows[id], id), a.rows[id].payload.input)
    ensures id in b.rows && b.rows[id].status == Started
  {
    hide UniqueRows, ShadowKey;
    assert RowKey(b.rows[id], id) == RowKey(a.rows[id], id);
  }

  /** All callers die; rows and keys stay. */
  lemma {:induction false} CrashAll(h: Hashing, run: seq<Step>) returns (more: seq<Step>)
    requires KindsApart(h)
    ensures var s, s' := After(h, run), After(h, run + more);
            s'.callers == map[] && s'.locks == map[] && s'.rows == s.rows && s'.intakes == s.intakes && s'.nextRow == s.nextRow
    decreases |After(h, run).callers|
  {
    hide After, Inv;
    var s := After(h, run);
    if s.callers == map[] {
      more := [];
      assert run + more == run;
      RunKeepsInv(h, run);
      LonelyTables(h, s);
    } else {
      var c :| c in s.callers;
      OneMore(h, run, Crash(c));
      FewerCallers(h, s, c);
      var rest := CrashAll(h, run + [Crash(c)]);
      more := [Crash(c)] + rest;
      assert run + more == run + [Crash(c)] + rest;
    }
  }

  lemma LonelyTables(h: Hashing, s: System)
    requires Inv(h, s) && s.callers == map[]
    ensures s.locks == map[]
  {
    hide RowsInv;
    NoCallersNoLocks(h, s);
  }

  lemma FewerCallers(h: Hashing, s: System, c: CallerId)
    requires c in s.callers
    ensures var s' := Apply(h, s, Crash(c));
            |s'.callers| < |s.callers| && s'.rows == s.rows && s'.intakes == s.intakes && s'.nextRow == s.nextRow
  {
    assert Apply(h, s, Crash(c)).callers.Keys == s.callers.Keys - {c};
    assert |s.callers| == |s.callers.Keys| && |Apply(h, s, Crash(c)).callers| == |Apply(h, s, Crash(c)).callers.Keys|;
  }

  lemma OnlyItself(h: Hashing, run: seq<Step>, id: ShadowId)
    requires KindsApart(h) && id in After(h, run).rows
    ensures var row := After(h, run).rows[id];
            Matching(After(h, run).rows, Request(row.key, row.payload)) == {id}
  {
    RunKeepsInv(h, run);
    hide After, LockInv, PcInv, NestedRows;
    assert UniqueRows(After(h, run).rows, After(h, run).nextRow);
  }

  /** A lone claim whose key is not bound elsewhere finishes its run. */
  lemma FinishAlone(h: Hashing, run: seq<Step>, claim: Claim) returns (more: seq<Step>)
    requires KindsApart(h) && After(h, run).callers == map[0 := Claimed(claim)]
    requires !BoundElsewhere(After(h, run), NestKey(claim), claim.request.payload.input)
    ensures claim.id in After(h, run + more).rows && After(h, run + more).rows[claim.id].status.Finished?
  {
    hide After, Inv, Apply, NestKey, BoundElsewhere;
    var step := Advance(0, Finish(""));
    more := [step, step, step];
    assert run + more == run + [step] + [step] + [step];
    OneMore(h, run, step);
    OneMore(h, run + [step], step);
    OneMore(h, run + [step] + [step], step);
    NestedStep(h, After(h, run), 0, Finish(""));
    FinishStep(h, After(h, run + [step]), claim);
    RunKeepsInv(h, run + [step] + [step]);
    PcHolds(h, After(h, run + [step] + [step]), 0);
    CompleteStep(h, After(h, run + [step] + [step]), claim);
  }

  lemma FinishStep(h: Hashing, s: System, claim: Claim)
    requires 0 in s.callers && s.callers[0].Working? && s.callers[0].nest == Some(claim)
    ensures var s' := Apply(h, s, Advance(0, Finish("")));
            0 in s'.callers && s'.callers[0] == Completing(claim, s.callers[0].investigation, "")
  {
    hide Keys;
  }

  lemma CompleteStep(h: Hashing, s: System, claim: Claim)
    requires 0 in s.callers && s.callers[0].Completing? && s.callers[0].claim == claim && PcInv(h, s, s.callers[0])
    ensures var s' := Apply(h, s, Advance(0, Finish("")));
            claim.id in s'.rows && s'.rows[claim.id].status.Finished?
  {
    hide Keys, HoldsBoth, MovesOnlyRows, GiveBack, Digits;
  }

  /** Every other started run can be finished: kill everybody, claim it again, and let the investigation run. */
  lemma OtherRunsCanFinish(h: Hashing, run: seq<Step>, id: ShadowId) returns (more: seq<Step>)
    requires KindsApart(h) && id in After(h, run).rows && After(h, run).rows[id].status == Started
    requires var row := After(h, run).rows[id]; !BoundElsewhere(After(h, run), RowKey(row, id), row.payload.input)
    ensures id in After(h, run + more).rows && After(h, run + more).rows[id].status.Finished?
  {
    hide After, Inv, Matching, ShadowKey, Keys;
    var row := After(h, run).rows[id];
    var r := Request(row.key, row.payload);
    var kills := CrashAll(h, run);
    OnlyItself(h, run + kills, id);
    assert id in Matching(After(h, run + kills).rows, r);
    var taken := ClaimAlone(h, run + kills, 0, r, id);
    assert After(h, run + kills + taken).callers == map[0 := Claimed(Claim(r, id))];
    var rest := FinishAlone(h, run + kills + taken, Claim(r, id));
    more := kills + taken + rest;
    assert run + more == run + kills + taken + rest;
  }

  /** Exactly the runs whose nested key is bound elsewhere are stuck for good. */
  lemma StartedRunIsStuckIff(h: Hashing, run: seq<Step>, id: ShadowId)
    requires KindsApart(h) && id in After(h, run).rows && After(h, run).rows[id].status == Started
    ensures var row := After(h, run).rows[id];
            BoundElsewhere(After(h, run), RowKey(row, id), row.payload.input)
            <==> forall more :: id in After(h, run + more).rows && After(h, run + more).rows[id].status == Started
  {
    hide After, BoundElsewhere, RowKey;
    var row := After(h, run).rows[id];
    if BoundElsewhere(After(h, run), RowKey(row, id), row.payload.input) {
      forall more
        ensures id in After(h, run + more).rows && After(h, run + more).rows[id].status == Started
      {
        BlockedRunsNeverFinish(h, run, more, id);
      }
    } else {
      var more := OtherRunsCanFinish(h, run, id);
      assert After(h, run + more).rows[id].status.Finished?;
    }
  }

  // ---------------------------------------------------------------- witness

  /**
   A processor dies after inserting its row; a plain intake takes the key shadow:0 with another body; the restarted
   claim is then refused, and the shadow run can never finish.
   */
  lemma APlainIntakeBlocksARestart(h: Hashing, r: Request, other: string) returns (run: seq<Step>)
    requires KindsApart(h) && other != r.payload.input
    ensures 0 in After(h, run).callers && After(h, run).callers[0].Claimed?
    ensures var next := Apply(h, After(h, run), Advance(0, Raise));
            0 in next.callers && next.callers[0] == GiveBack(h, r, Conflict("IDEMPOTENCY_KEY_CONFLICT"))
    ensures 0 in After(h, run).rows && After(h, run).rows[0].status == Started
    ensures BoundElsewhere(After(h, run), RowKey(After(h, run).rows[0], 0), After(h, run).rows[0].payload.input)
  {
    hide After, Inv, Keys, Matching, Apply, GiveBack, HoldsBoth, MovesOnlyRows;
    assert After(h, []) == Start() by { NothingYet(h); }
    NoneMatch(map[], r);
    var opening := ClaimAlone(h, [], 0, r, 0);
    assert [] + opening == opening;
    CrashAlone(h, opening, 0);
    var quiet := opening + [Crash(0)];
    var k := ShadowKey(r.payload.tenant, 0);
    CrashKeepsIntakes(h, opening, 0);
    var submit := Submit(5, k.0, k.1, other);
    OneMore(h, quiet, submit);
    ShadowKeyFits();
    SubmitBinds(h, After(h, quiet), submit, k);
    CrashAlone(h, quiet + [submit], 5);
    CrashKeepsIntakes(h, quiet + [submit], 5);
    var taken := quiet + [submit] + [Crash(5)];
    OnlyMatch(ShadowRow(r.key, r.payload, Started), r);
    var again := ClaimAlone(h, taken, 0, r, 0);
    run := taken + again;
    NestedStep(h, After(h, run), 0, Raise);
  }

  lemma CrashKeepsIntakes(h: Hashing, run: seq<Step>, c: CallerId)
    ensures After(h, run + [Crash(c)]).intakes == After(h, run).intakes
  {
    OneMore(h, run, Crash(c));
  }

  lemma ShadowKeyFits()
    ensures forall tenant :: ShadowKey(tenant, 0).0 == tenant && 1 <= |ShadowKey(tenant, 0).1| <= 200
  {
  }
}
