/** Every step of the shadow system keeps its invariant; the two locks are what makes select-then-insert safe. */
module ShadowInvariant {
  import opened Wrappers
  import opened Evidence
  import opened Identity
  import opened ShadowSystem

  lemma KeysAreSorted(h: Hashing, r: Request)
    ensures 1 <= |Keys(h, r)| <= 2
    ensures forall i, j | 0 <= i < j < |Keys(h, r)| :: Keys(h, r)[i] < Keys(h, r)[j]
    ensures h(KeyLock(r)) in Keys(h, r) && h(CaseLock(r.payload)) in Keys(h, r)
    ensures forall k | k in Keys(h, r) :: k == h(KeyLock(r)) || k == h(CaseLock(r.payload))
  {
  }

  // ----------------------------------------------------------------- locks

  /** A caller's step takes one free key, gives one of its own back, or leaves the locks alone. */
  datatype LockChange = Takes(key: int) | Returns(key: int) | Keeps

  function ChangeOf(h: Hashing, pc: Pc): LockChange {
    match pc
    case Locking(r, n) => if n < |Keys(h, r)| then Takes(Keys(h, r)[n]) else Keeps
    case WantsTool(_, i, t) => Takes(h(ForTool(i, t)))
    case HasTool(_, i, t) => Returns(h(ForTool(i, t)))
    case Releasing(r, left, _) => if 0 < left <= |Keys(h, r)| then Returns(Keys(h, r)[left - 1]) else Keeps
    case _ => Keeps
  }

  lemma StepChangesLocks(h: Hashing, s: System, c: CallerId, choice: Choice)
    requires CanAdvance(h, s, c)
    ensures var s', pc := Advanced(h, s, c, choice), s.callers[c];
            && c in s'.callers && s'.callers == s.callers[c := s'.callers[c]]
            && match ChangeOf(h, pc)
               case Takes(k) => k !in s.locks && s'.locks == s.locks[k := c]
               case Returns(k) => s'.locks == s.locks - {k}
               case Keeps => s'.locks == s.locks
  {
    var pc := s.callers[c];
    if pc.Locking? || pc.Releasing? {
      KeyStepChangesLocks(h, s, c, choice);
    } else if pc.WantsTool? || pc.HasTool? {
      ToolStepChangesLocks(h, s, c, choice);
    } else if TouchesTables(pc) {
      TableStepKeepsLocks(h, s, c, choice);
    } else {
      OtherStepKeepsLocks(h, s, c, choice);
    }
    hide *;
    MostStepsKeepLocks(h, pc);
  }

  /** The points whose step may write a row or bind a key. */
  predicate TouchesTables(pc: Pc) {
    pc.Inserting? || pc.Claimed? || pc.Completing?
  }

  lemma MostStepsKeepLocks(h: Hashing, pc: Pc)
    ensures !(pc.Locking? || pc.Releasing? || pc.WantsTool? || pc.HasTool?) ==> ChangeOf(h, pc) == Keeps
  {
    hide Keys;
  }

  lemma TableStepKeepsLocks(h: Hashing, s: System, c: CallerId, choice: Choice)
    requires CanAdvance(h, s, c) && TouchesTables(s.callers[c])
    ensures var s' := Advanced(h, s, c, choice);
            c in s'.callers && s'.callers == s.callers[c := s'.callers[c]] && s'.locks == s.locks
  {
    hide Keys, Inserted, Nested, Completed, HoldsBoth;
  }

  lemma OtherStepKeepsLocks(h: Hashing, s: System, c: CallerId, choice: Choice)
    requires CanAdvance(h, s, c) && !TouchesTables(s.callers[c])
    requires var pc := s.callers[c]; !(pc.Locking? || pc.Releasing? || pc.WantsTool? || pc.HasTool?)
    ensures var s' := Advanced(h, s, c, choice);
            c in s'.callers && s'.callers == s.callers[c := s'.callers[c]] && s'.locks == s.locks
  {
    hide Keys, Selected, Chosen, GiveBack, HoldsBoth;
  }

  lemma KeyStepChangesLocks(h: Hashing, s: System, c: CallerId, choice: Choice)
    requires CanAdvance(h, s, c) && (s.callers[c].Locking? || s.callers[c].Releasing?)
    ensures var s', pc := Advanced(h, s, c, choice), s.callers[c];
            && c in s'.callers && s'.callers == s.callers[c := s'.callers[c]]
            && match ChangeOf(h, pc)
               case Takes(k) => k !in s.locks && s'.locks == s.locks[k := c]
               case Returns(k) => s'.locks == s.locks - {k}
               case Keeps => s'.locks == s.locks
  {
    hide Keys;
  }

  lemma ToolStepChangesLocks(h: Hashing, s: System, c: CallerId, choice: Choice)
    requires CanAdvance(h, s, c) && (s.callers[c].WantsTool? || s.callers[c].HasTool?)
    ensures var s', pc := Advanced(h, s, c, choice), s.callers[c];
            && c in s'.callers && s'.callers == s.callers[c := s'.callers[c]]
            && match ChangeOf(h, pc)
               case Takes(k) => k !in s.locks && s'.locks == s.locks[k := c]
               case Returns(k) => s'.locks == s.locks - {k}
               case Keeps => s'.locks == s.locks
  {
    hide Keys;
  }

  /** Every other step leaves the rows and the keys as they are; at most it logs an event. */
  lemma OtherStepKeepsTables(h: Hashing, s: System, c: CallerId, choice: Choice)
    requires CanAdvance(h, s, c) && !TouchesTables(s.callers[c])
    ensures SameTables(s, Advanced(h, s, c, choice))
  {
    hide Keys, Selected, Chosen, GiveBack, HoldsBoth;
  }

  ghost predicate SameTables(s: System, s': System) {
    && s'.rows == s.rows && s'.intakes == s.intakes && s'.nextRow == s.nextRow
    && s'.nextInvestigation == s.nextInvestigation && s.events <= s'.events
  }

  lemma SameTablesMoveOn(s: System, s': System)
    requires SameTables(s, s')
    ensures Rely(s, s') && (RowsInv(s) ==> RowsInv(s'))
  {
    RowsDependOnTables(s, s');
    hide RowsInv;
  }

  /** The keys held after a step, by where the caller stands. */
  ghost predicate HeldChanges(h: Hashing, pc: Pc, pc': Pc) {
    var before, after := ShadowKeysHeld(h, pc), ShadowKeysHeld(h, pc');
    match pc
    case WantsTool(_, i, t) => after == before && pc'.HasTool? && pc'.investigation == i && pc'.tool == t
    case _ =>
      && !pc'.HasTool?
      && match ChangeOf(h, pc)
         case Takes(k) => after == before + [k]
         case Returns(k) => if pc.HasTool? then after == before else before == after + [k]
         case Keeps => after == before
  }

  lemma KeyStepChangesHeld(h: Hashing, s: System, c: CallerId, choice: Choice)
    requires CanAdvance(h, s, c) && PcInv(h, s, s.callers[c]) && (s.callers[c].Locking? || s.callers[c].Releasing?)
    ensures HeldChanges(h, s.callers[c], Advanced(h, s, c, choice).callers[c])
  {
    hide AnswerInv, ClaimInv, NestInv, Keys;
    var pc := s.callers[c];
    if pc.Locking? {
      Taking(Keys(h, pc.request), pc.taken);
    } else if pc.left > 0 {
      Taking(Keys(h, pc.request), pc.left - 1);
    }
  }

  lemma ToolStepChangesHeld(h: Hashing, s: System, c: CallerId, choice: Choice)
    requires CanAdvance(h, s, c) && (s.callers[c].WantsTool? || s.callers[c].HasTool? || s.callers[c].Working?)
    ensures HeldChanges(h, s.callers[c], Advanced(h, s, c, choice).callers[c])
  {
    hide Keys, Chosen;
  }

  lemma RowStepChangesHeld(h: Hashing, s: System, c: CallerId, choice: Choice)
    requires CanAdvance(h, s, c) && (Inside(s.callers[c]) || s.callers[c].Announcing?)
    requires var pc := s.callers[c]; !pc.WantsTool? && !pc.HasTool? && !pc.Working?
    ensures HeldChanges(h, s.callers[c], Advanced(h, s, c, choice).callers[c])
  {
    InsideHoldsBoth(h, s.callers[c]);
    hide Keys, Selected, Inserted, Nested, Completed, GiveBack;
  }

  lemma StepChangesHeld(h: Hashing, s: System, c: CallerId, choice: Choice)
    requires CanAdvance(h, s, c) && PcInv(h, s, s.callers[c])
    ensures HeldChanges(h, s.callers[c], Advanced(h, s, c, choice).callers[c])
  {
    hide HeldChanges, Advanced, PcInv;
    var pc := s.callers[c];
    if pc.Locking? || pc.Releasing? {
      KeyStepChangesHeld(h, s, c, choice);
    } else if pc.WantsTool? || pc.HasTool? || pc.Working? {
      ToolStepChangesHeld(h, s, c, choice);
    } else {
      RowStepChangesHeld(h, s, c, choice);
    }
  }

  lemma Taking(keys: seq<int>, n: nat)
    requires n < |keys|
    ensures keys[..n + 1] == keys[..n] + [keys[n]] && keys[..|keys|] == keys
  {
  }

  lemma HeldFollows(h: Hashing, s: System, c: CallerId, choice: Choice, k: int)
    requires KindsApart(h) && CanAdvance(h, s, c) && PcInv(h, s, s.callers[c])
    ensures var pc, pc' := s.callers[c], Advanced(h, s, c, choice).callers[c];
            Holds(h, pc', k) <==> match ChangeOf(h, pc)
                                  case Takes(x) => k == x || Holds(h, pc, k)
                                  case Returns(x) => k != x && Holds(h, pc, k)
                                  case Keeps => Holds(h, pc, k)
  {
    StepChangesHeld(h, s, c, choice);
    var pc := s.callers[c];
    HeldShadowKeys(h, s, pc);
    hide Advanced, PcInv, Keys, ShadowKeysHeld, RequestOf;
  }

  /** The shadow keys held are distinct, and none of them is a tool's. */
  lemma HeldShadowKeys(h: Hashing, s: System, pc: Pc)
    requires KindsApart(h) && PcInv(h, s, pc)
    ensures forall i, j | 0 <= i < j < |ShadowKeysHeld(h, pc)| :: ShadowKeysHeld(h, pc)[i] < ShadowKeysHeld(h, pc)[j]
    ensures forall i: InvestigationId, t: Tool :: h(ForTool(i, t)) !in ShadowKeysHeld(h, pc)
  {
    if RequestOf(pc).Some? {
      KeysAreSorted(h, RequestOf(pc).value);
    }
    hide Keys, AnswerInv, ClaimInv, NestInv;
  }

  lemma LocksFollow(h: Hashing, s: System, s': System, c: CallerId, change: LockChange)
    requires LockInv(h, s) && c in s.callers && c in s'.callers && s'.callers == s.callers[c := s'.callers[c]]
    requires match change
             case Takes(k) => k !in s.locks && s'.locks == s.locks[k := c]
             case Returns(k) => s'.locks == s.locks - {k} && Holds(h, s.callers[c], k)
             case Keeps => s'.locks == s.locks
    requires forall k :: Holds(h, s'.callers[c], k) <==> match change
                                                         case Takes(x) => k == x || Holds(h, s.callers[c], k)
                                                         case Returns(x) => k != x && Holds(h, s.callers[c], k)
                                                         case Keeps => Holds(h, s.callers[c], k)
    ensures LockInv(h, s')
  {
    hide Holds;
    forall d, k | d in s'.callers && Holds(h, s'.callers[d], k)
      ensures k in s'.locks && s'.locks[k] == d
    {
      if d != c || Holds(h, s.callers[c], k) {
        assert Holds(h, s.callers[d], k);
        assert k in s.locks && s.locks[k] == d;
      }
    }
    forall k | k in s'.locks
      ensures s'.locks[k] in s'.callers && Holds(h, s'.callers[s'.locks[k]], k)
    {
      if k in s.locks {
        assert Holds(h, s.callers[s.locks[k]], k);
      }
    }
  }

  lemma AdvanceKeepsLocks(h: Hashing, s: System, c: CallerId, choice: Choice)
    requires KindsApart(h) && LockInv(h, s) && CanAdvance(h, s, c) && PcInv(h, s, s.callers[c])
    ensures LockInv(h, Advanced(h, s, c, choice))
  {
    hide LockInv, PcInv, Holds, Advanced, Keys;
    var s', change := Advanced(h, s, c, choice), ChangeOf(h, s.callers[c]);
    StepChangesLocks(h, s, c, choice);
    forall k
      ensures Holds(h, s'.callers[c], k) <==> match change
                                              case Takes(x) => k == x || Holds(h, s.callers[c], k)
                                              case Returns(x) => k != x && Holds(h, s.callers[c], k)
                                              case Keeps => Holds(h, s.callers[c], k)
    {
      HeldFollows(h, s, c, choice, k);
    }
    if change.Returns? {
      ReturnsWhatItHolds(h, s.callers[c]);
    }
    LocksFollow(h, s, s', c, change);
  }

  lemma ReturnsWhatItHolds(h: Hashing, pc: Pc)
    requires ChangeOf(h, pc).Returns?
    ensures Holds(h, pc, ChangeOf(h, pc).key)
  {
    hide Keys;
  }

  // ------------------------------------------------------------- exclusion

  /** The caller holds both keys of its request. */
  predicate Inside(pc: Pc) {
    pc.Selecting? || pc.Refusing? || pc.Inserting? || ClaimOf(pc).Some?
  }

  /** Two callers inside for one idempotency key, or for one case, are the same caller. */
  lemma InsideExcludes(h: Hashing, s: System, c: CallerId, d: CallerId)
    requires LockInv(h, s) && c in s.callers && d in s.callers && Inside(s.callers[c]) && Inside(s.callers[d])
    requires var a, b := RequestOf(s.callers[c]).value, RequestOf(s.callers[d]).value;
             KeyLock(a) == KeyLock(b) || CaseLock(a.payload) == CaseLock(b.payload)
    ensures c == d
  {
    var a, b := RequestOf(s.callers[c]).value, RequestOf(s.callers[d]).value;
    KeysAreSorted(h, a);
    KeysAreSorted(h, b);
    var k := if KeyLock(a) == KeyLock(b) then h(KeyLock(a)) else h(CaseLock(a.payload));
    InsideHoldsBoth(h, s.callers[c]);
    InsideHoldsBoth(h, s.callers[d]);
    hide Keys, ShadowKeysHeld, RequestOf;
    assert Holds(h, s.callers[c], k) && Holds(h, s.callers[d], k);
    assert s.locks[k] == c;
    assert s.locks[k] == d;
  }

  lemma InsideHoldsBoth(h: Hashing, pc: Pc)
    requires Inside(pc)
    ensures RequestOf(pc).Some? && ShadowKeysHeld(h, pc) == Keys(h, RequestOf(pc).value)
  {
    hide Keys;
  }

  // ---------------------------------------------------------------- rows

  lemma SelectedIsJustified(h: Hashing, s: System, r: Request)
    requires RowsInv(s)
    ensures PcInv(h, s, Selected(h, s.rows, r))
  {
    var found := Matching(s.rows, r);
    hide Keys;
    if |found| == 1 {
      var id := TheOne(found);
      assert id in found;
    }
  }

  lemma InsertKeepsUnique(rows: map<ShadowId, ShadowRow>, next: ShadowId, r: Request)
    requires UniqueRows(rows, next) && Matching(rows, r) == {}
    ensures next !in rows && UniqueRows(rows[next := ShadowRow(r.key, r.payload, Started)], next + 1)
  {
    var after := rows[next := ShadowRow(r.key, r.payload, Started)];
    forall i | i in rows
      ensures !Matches(rows[i], r) && !Matches(after[next], Request(rows[i].key, rows[i].payload))
    {
      assert i !in Matching(rows, r);
    }
  }

  /** Neither UNIQUE constraint is hit. */
  lemma InsertSucceeds(h: Hashing, s: System, c: CallerId, r: Request)
    requires RowsInv(s) && c in s.callers && Matching(s.rows, r) == {}
    ensures var s' := Inserted(h, s, c, r);
            && s.nextRow !in s.rows
            && s'.rows == s.rows[s.nextRow := ShadowRow(r.key, r.payload, Started)]
            && s'.callers == s.callers[c := Announcing(Claim(r, s.nextRow))]
  {
    InsertKeepsUnique(s.rows, s.nextRow, r);
    hide Keys, RowsInv, Matching, HoldsBoth, MovesOnlyRows, GiveBack;
  }

  lemma RowsInvIs(s: System)
    ensures RowsInv(s) <==> UniqueRows(s.rows, s.nextRow) && NestedRows(s.rows, s.intakes, s.nextInvestigation)
  {
  }

  lemma InsertGrows(a: System, b: System, row: ShadowRow)
    requires a.nextRow !in a.rows && b.rows == a.rows[a.nextRow := row] && b.intakes == a.intakes && b.events == a.events
    ensures Rely(a, b)
  {
  }

  lemma BindGrows(s: System, k: IntakeKey, input: string, shadow: bool)
    ensures Rely(s, Bound(s, k, input, shadow))
  {
  }

  lemma CompleteGrows(a: System, b: System, id: ShadowId, status: Status)
    requires id in a.rows && a.rows[id].status == Started && b.rows == a.rows[id := a.rows[id].(status := status)]
    requires b.intakes == a.intakes && a.events <= b.events
    ensures Rely(a, b)
  {
  }

  lemma InsertMovesOn(h: Hashing, s: System, c: CallerId, r: Request)
    requires RowsInv(s) && c in s.callers && Matching(s.rows, r) == {}
    ensures RowsInv(Inserted(h, s, c, r)) && Rely(s, Inserted(h, s, c, r))
  {
    InsertKeepsUnique(s.rows, s.nextRow, r);
    InsertKeepsNested(s, ShadowRow(r.key, r.payload, Started));
    InsertSucceeds(h, s, c, r);
    InsertTables(h, s, c, r);
    hide *;
    RowsInvIs(s);
    RowsInvIs(Inserted(h, s, c, r));
    InsertGrows(s, Inserted(h, s, c, r), ShadowRow(r.key, r.payload, Started));
  }

  lemma InsertTables(h: Hashing, s: System, c: CallerId, r: Request)
    ensures var s' := Inserted(h, s, c, r);
            && s'.intakes == s.intakes && s'.events == s.events && s'.nextInvestigation == s.nextInvestigation
            && (Matching(s.rows, r) == {} ==> s'.nextRow == s.nextRow + 1)
  {
    hide Keys, Matching, HoldsBoth, MovesOnlyRows, GiveBack;
  }

  lemma InsertKeepsNested(s: System, row: ShadowRow)
    requires NestedRows(s.rows, s.intakes, s.nextInvestigation) && s.nextRow !in s.rows && row.status == Started
    ensures NestedRows(s.rows[s.nextRow := row], s.intakes, s.nextInvestigation)
  {
  }

  lemma InsertIsJustified(h: Hashing, s: System, c: CallerId, r: Request)
    requires RowsInv(s) && c in s.callers && Matching(s.rows, r) == {}
    ensures var s' := Inserted(h, s, c, r); c in s'.callers && PcInv(h, s', s'.callers[c])
  {
    InsertSucceeds(h, s, c, r);
    hide Keys, RowsInv, Matching, HoldsBoth, MovesOnlyRows, Inserted;
  }

  lemma BindKeepsNested(s: System, k: IntakeKey, input: string, shadow: bool)
    requires NestedRows(s.rows, s.intakes, s.nextInvestigation)
    ensures var b := Bound(s, k, input, shadow); NestedRows(b.rows, b.intakes, b.nextInvestigation)
  {
    hide Digits;
  }

  lemma BindKeepsRows(s: System, k: IntakeKey, input: string, shadow: bool)
    requires RowsInv(s)
    ensures RowsInv(Bound(s, k, input, shadow))
  {
    BindKeepsNested(s, k, input, shadow);
    hide UniqueRows, NestedRows;
  }

  /** What the nested intake does to the tables. */
  lemma NestTables(h: Hashing, s: System, c: CallerId, claim: Claim)
    ensures var s', b := Nested(h, s, c, claim), Bound(s, NestKey(claim), claim.request.payload.input, true);
            && s'.rows == s.rows == b.rows && s'.events == s.events && s'.nextRow == s.nextRow == b.nextRow
            && s'.intakes == b.intakes && s'.nextInvestigation == b.nextInvestigation
  {
    hide Keys, HoldsBoth, MovesOnlyRows, GiveBack, Digits;
  }

  lemma NestMovesOn(h: Hashing, s: System, c: CallerId, claim: Claim)
    requires RowsInv(s)
    ensures RowsInv(Nested(h, s, c, claim)) && Rely(s, Nested(h, s, c, claim))
  {
    var b := Bound(s, NestKey(claim), claim.request.payload.input, true);
    NestTables(h, s, c, claim);
    BindKeepsRows(s, NestKey(claim), claim.request.payload.input, true);
    BindGrows(s, NestKey(claim), claim.request.payload.input, true);
    BoundLogsNothing(s, NestKey(claim), claim.request.payload.input, true);
    hide *;
    RowsDependOnTables(b, Nested(h, s, c, claim));
    RelyDependsOnTables(s, b, Nested(h, s, c, claim));
  }

  lemma BoundLogsNothing(s: System, k: IntakeKey, input: string, shadow: bool)
    ensures Bound(s, k, input, shadow).events == s.events && Bound(s, k, input, shadow).rows == s.rows
    ensures Bound(s, k, input, shadow).locks == s.locks && Bound(s, k, input, shadow).callers == s.callers
  {
  }

  lemma RelyDependsOnTables(a: System, b: System, c: System)
    requires Rely(a, b) && c.rows == b.rows && c.intakes == b.intakes && c.events == b.events
    ensures Rely(a, c)
  {
  }

  /** Found or created, the nested investigation is that of this payload; else the caller is refused. */
  lemma NestIsJustified(h: Hashing, s: System, c: CallerId, claim: Claim)
    requires ClaimInv(s, claim)
    ensures var s' := Nested(h, s, c, claim); c in s'.callers && PcInv(h, s', s'.callers[c])
  {
    var s' := Nested(h, s, c, claim);
    GivingBackIsJustified(h, s', claim.request, Conflict("IDEMPOTENCY_KEY_CONFLICT"));
    hide Keys, HoldsBoth, MovesOnlyRows, GiveBack, Digits, Matching;
  }

  lemma CompleteKeepsUnique(rows: map<ShadowId, ShadowRow>, next: ShadowId, id: ShadowId, status: Status)
    requires UniqueRows(rows, next) && id in rows
    ensures UniqueRows(rows[id := rows[id].(status := status)], next)
  {
    var after := rows[id := rows[id].(status := status)];
    forall i, j | i in after && j in after && Matches(after[i], Request(after[j].key, after[j].payload))
      ensures i == j
    {
      assert Matches(rows[i], Request(rows[j].key, rows[j].payload));
    }
  }

  lemma CompleteKeepsNested(s: System, id: ShadowId, status: Status)
    requires NestedRows(s.rows, s.intakes, s.nextInvestigation) && id in s.rows && status.Finished?
    requires var k := RowKey(s.rows[id], id);
             k in s.intakes && status.investigation == s.intakes[k].investigation && s.intakes[k].input == s.rows[id].payload.input
    ensures NestedRows(s.rows[id := s.rows[id].(status := status)], s.intakes, s.nextInvestigation)
  {
    hide Digits;
  }

  /** The row is still started when its claim holder comes to complete it. */
  lemma CompleteSucceeds(h: Hashing, s: System, c: CallerId, claim: Claim, i: InvestigationId, output: string)
    requires c in s.callers && ClaimInv(s, claim)
    ensures var s' := Completed(h, s, c, claim, i, output);
            && s'.callers == s.callers[c := GiveBack(h, claim.request, Fresh(claim.id))]
            && s'.rows == s.rows[claim.id := s.rows[claim.id].(status := Finished(i, output))]
            && s'.events == s.events + [Event(claim.id, SHADOW_RUN_COMPLETED)]
  {
    hide Keys, HoldsBoth, MovesOnlyRows, GiveBack;
  }

  lemma CompleteTables(h: Hashing, s: System, c: CallerId, claim: Claim, i: InvestigationId, output: string)
    ensures var s' := Completed(h, s, c, claim, i, output);
            s'.intakes == s.intakes && s'.nextRow == s.nextRow && s'.nextInvestigation == s.nextInvestigation
  {
    hide Keys, HoldsBoth, MovesOnlyRows, GiveBack;
  }

  lemma CompleteMovesOn(h: Hashing, s: System, c: CallerId, claim: Claim, i: InvestigationId, output: string)
    requires RowsInv(s) && c in s.callers && ClaimInv(s, claim) && NestInv(s, Some(claim), i)
    ensures var s' := Completed(h, s, c, claim, i, output);
            RowsInv(s') && Rely(s, s') && s'.intakes == s.intakes
  {
    CompleteKeepsUnique(s.rows, s.nextRow, claim.id, Finished(i, output));
    CompleteKeepsNested(s, claim.id, Finished(i, output));
    CompleteSucceeds(h, s, c, claim, i, output);
    CompleteTables(h, s, c, claim, i, output);
    hide *;
    RowsInvIs(s);
    RowsInvIs(Completed(h, s, c, claim, i, output));
    CompleteGrows(s, Completed(h, s, c, claim, i, output), claim.id, Finished(i, output));
  }

  lemma GivingBackIsJustified(h: Hashing, s: System, r: Request, answer: Answer)
    requires AnswerInv(s, answer)
    ensures PcInv(h, s, GiveBack(h, r, answer))
  {
    hide Keys;
  }

  lemma AdvanceMovesOn(h: Hashing, s: System, c: CallerId, choice: Choice)
    requires RowsInv(s) && CanAdvance(h, s, c) && PcInv(h, s, s.callers[c])
    ensures RowsInv(Advanced(h, s, c, choice)) && Rely(s, Advanced(h, s, c, choice))
  {
    hide RowsInv, Rely, SameTables, Inserted, Nested, Completed, Keys;
    if !TouchesTables(s.callers[c]) {
      OtherStepKeepsTables(h, s, c, choice);
      hide Advanced, PcInv;
      SameTablesMoveOn(s, Advanced(h, s, c, choice));
      return;
    }
    match s.callers[c]
    case Inserting(r) => InsertMovesOn(h, s, c, r);
    case Claimed(claim) => NestMovesOn(h, s, c, claim);
    case Completing(claim, i, output) => CompleteMovesOn(h, s, c, claim, i, output);
  }

  /** The caller's own next point. */
  lemma AdvanceIsJustified(h: Hashing, s: System, c: CallerId, choice: Choice)
    requires RowsInv(s) && CanAdvance(h, s, c) && PcInv(h, s, s.callers[c])
    ensures var s' := Advanced(h, s, c, choice);
            c in s'.callers && PcInv(h, s', s'.callers[c])
  {
    hide RowsInv, Matching, Selected, Inserted, Nested, Completed, HoldsBoth, MovesOnlyRows, Chosen, GiveBack;
    var pc, s' := s.callers[c], Advanced(h, s, c, choice);
    match pc
    case Locking(r, n) => KeyStepIsJustified(h, s, c, choice);
    case Releasing(r, _, _) => KeyStepIsJustified(h, s, c, choice);
    case Selecting(r) =>
      SelectedIsJustified(h, s, r);
      PcDependsOnTables(h, s, s', Selected(h, s.rows, r));
    case Refusing(r, id) => GivingBackIsJustified(h, s', r, Conflict("SHADOW_IDEMPOTENCY_CONFLICT"));
    case Inserting(r) => InsertIsJustified(h, s, c, r);
    case Announcing(claim) => ToolStepIsJustified(h, s, c, choice);
    case Claimed(claim) => NestIsJustified(h, s, c, claim);
    case Working(_, _) =>
      ChosenIsJustified(h, s, pc, choice);
      PcDependsOnTables(h, s, s', Chosen(h, pc, choice));
    case WantsTool(_, _, _) => ToolStepIsJustified(h, s, c, choice);
    case HasTool(_, _, _) => ToolStepIsJustified(h, s, c, choice);
    case Completing(claim, i, output) =>
      CompleteSucceeds(h, s, c, claim, i, output);
      GivingBackIsJustified(h, s', claim.request, Fresh(claim.id));
  }

  lemma KeyStepIsJustified(h: Hashing, s: System, c: CallerId, choice: Choice)
    requires CanAdvance(h, s, c) && PcInv(h, s, s.callers[c]) && (s.callers[c].Locking? || s.callers[c].Releasing?)
    ensures var s' := Advanced(h, s, c, choice);
            c in s'.callers && PcInv(h, s', s'.callers[c])
  {
    hide Keys, Matching;
  }

  lemma ToolStepIsJustified(h: Hashing, s: System, c: CallerId, choice: Choice)
    requires CanAdvance(h, s, c) && PcInv(h, s, s.callers[c])
    requires s.callers[c].Announcing? || s.callers[c].WantsTool? || s.callers[c].HasTool?
    ensures var s' := Advanced(h, s, c, choice);
            c in s'.callers && PcInv(h, s', s'.callers[c])
  {
    hide Keys, Matching;
  }

  lemma AdvanceIsSound(h: Hashing, s: System, c: CallerId, choice: Choice)
    requires RowsInv(s) && CanAdvance(h, s, c) && PcInv(h, s, s.callers[c])
    ensures var s' := Advanced(h, s, c, choice);
            RowsInv(s') && Rely(s, s') && c in s'.callers && PcInv(h, s', s'.callers[c])
  {
    hide RowsInv, PcInv, Advanced, Rely;
    AdvanceMovesOn(h, s, c, choice);
    AdvanceIsJustified(h, s, c, choice);
  }

  lemma ChosenIsJustified(h: Hashing, s: System, pc: Pc, choice: Choice)
    requires PcInv(h, s, pc) && pc.Working?
    ensures PcInv(h, s, Chosen(h, pc, choice))
  {
    hide Keys, HoldsBoth;
  }

  lemma RowsDependOnTables(a: System, b: System)
    ensures (RowsInv(a) && b.rows == a.rows && b.intakes == a.intakes && b.nextRow == a.nextRow
             && b.nextInvestigation == a.nextInvestigation) ==> RowsInv(b)
  {
  }

  lemma PcDependsOnTables(h: Hashing, a: System, b: System, pc: Pc)
    requires PcInv(h, a, pc) && b.rows == a.rows && b.intakes == a.intakes
    ensures PcInv(h, b, pc)
  {
  }

  // ---------------------------------------------------------- other callers

  /** How one step may change the rows that another caller depends on. */
  ghost predicate LeavesAlone(s: System, s': System, pc: Pc) {
    && Rely(s, s')
    && (ClaimOf(pc).Some? && ClaimOf(pc).value.id in s.rows ==>
          s'.rows[ClaimOf(pc).value.id] == s.rows[ClaimOf(pc).value.id])
    && (pc.Inserting? ==>
          forall i | i in s'.rows :: Matches(s'.rows[i], pc.request) ==> i in s.rows && Matches(s.rows[i], pc.request))
  }

  lemma LeftAloneStays(h: Hashing, s: System, s': System, pc: Pc)
    requires PcInv(h, s, pc) && LeavesAlone(s, s', pc)
    ensures PcInv(h, s', pc)
  {
    hide Matches, Keys;
    if pc.Inserting? {
      forall i | i in s'.rows
        ensures !Matches(s'.rows[i], pc.request)
      {
        assert i !in Matching(s.rows, pc.request);
      }
    }
  }

  /** Rows are inserted and completed only inside, so whoever else is inside for them does not see them change. */
  lemma OthersAreLeftAlone(h: Hashing, s: System, c: CallerId, choice: Choice, d: CallerId)
    requires Inv(h, s) && CanAdvance(h, s, c) && d in s.callers && d != c
    ensures LeavesAlone(s, Advanced(h, s, c, choice), s.callers[d])
  {
    hide LockInv, RowsInv, PcInv, Rely, SameTables, Inserted, Nested, Completed, LeavesAlone, Keys;
    var pc := s.callers[c];
    assert PcInv(h, s, pc) && PcInv(h, s, s.callers[d]);
    AdvanceMovesOn(h, s, c, choice);
    if !TouchesTables(pc) {
      OtherStepKeepsTables(h, s, c, choice);
      hide Advanced;
      SameRowsLeaveAlone(s, Advanced(h, s, c, choice), s.callers[d]);
      return;
    }
    match pc
    case Inserting(r) => InsertLeavesAlone(h, s, c, r, d);
    case Claimed(claim) =>
      NestTables(h, s, c, claim);
      SameRowsLeaveAlone(s, Nested(h, s, c, claim), s.callers[d]);
    case Completing(claim, i, output) => CompleteLeavesAlone(h, s, c, d);
  }

  lemma InsertLeavesAlone(h: Hashing, s: System, c: CallerId, r: Request, d: CallerId)
    requires LockInv(h, s) && RowsInv(s) && c in s.callers && d in s.callers && d != c && s.callers[c] == Inserting(r)
    requires PcInv(h, s, s.callers[c]) && PcInv(h, s, s.callers[d])
    ensures LeavesAlone(s, Inserted(h, s, c, r), s.callers[d])
  {
    InsertMovesOn(h, s, c, r);
    InsertSucceeds(h, s, c, r);
    hide LockInv, RowsInv, Keys, Rely, Inserted, Matching;
    var other := s.callers[d];
    if other.Inserting? && Matches(ShadowRow(r.key, r.payload, Started), other.request) {
      InsideExcludes(h, s, c, d);
    }
  }

  lemma CompleteLeavesAlone(h: Hashing, s: System, c: CallerId, d: CallerId)
    requires LockInv(h, s) && RowsInv(s) && c in s.callers && d in s.callers && d != c && s.callers[c].Completing?
    requires PcInv(h, s, s.callers[c]) && PcInv(h, s, s.callers[d])
    ensures LeavesAlone(s, Completed(h, s, c, s.callers[c].claim, s.callers[c].investigation, s.callers[c].output), s.callers[d])
  {
    var pc, other := s.callers[c], s.callers[d];
    CompleteMovesOn(h, s, c, pc.claim, pc.investigation, pc.output);
    CompleteSucceeds(h, s, c, pc.claim, pc.investigation, pc.output);
    hide LockInv, RowsInv, Keys, Rely, Completed, Matching;
    if ClaimOf(other).Some? && ClaimOf(other).value.id == pc.claim.id {
      InsideExcludes(h, s, c, d);
    }
  }

  // ------------------------------------------------------------ preservation

  lemma AdvanceKeepsInv(h: Hashing, s: System, c: CallerId, choice: Choice)
    requires KindsApart(h) && Inv(h, s) && CanAdvance(h, s, c)
    ensures Inv(h, Advanced(h, s, c, choice)) && Rely(s, Advanced(h, s, c, choice))
  {
    hide LockInv, RowsInv, PcInv, Rely, LeavesAlone, Advanced;
    var s' := Advanced(h, s, c, choice);
    AdvanceIsSound(h, s, c, choice);
    AdvanceKeepsLocks(h, s, c, choice);
    StepChangesLocks(h, s, c, choice);
    forall d | d in s'.callers
      ensures PcInv(h, s', s'.callers[d])
    {
      if d != c {
        OthersAreLeftAlone(h, s, c, choice, d);
        LeftAloneStays(h, s, s', s.callers[d]);
      }
    }
  }

  lemma JoinKeepsInv(h: Hashing, s: System, c: CallerId, pc: Pc)
    requires Inv(h, s) && c !in s.callers && PcInv(h, s, pc) && forall k :: !Holds(h, pc, k)
    ensures Inv(h, At(s, c, pc)) && Rely(s, At(s, c, pc))
  {
    hide PcInv, Holds;
    RowsDependOnTables(s, At(s, c, pc));
    forall d | d in At(s, c, pc).callers
      ensures PcInv(h, At(s, c, pc), At(s, c, pc).callers[d])
    {
      PcDependsOnTables(h, s, At(s, c, pc), At(s, c, pc).callers[d]);
    }
  }

  lemma CrashKeepsInv(h: Hashing, s: System, c: CallerId)
    requires Inv(h, s)
    ensures Inv(h, Dropped(s, c)) && Rely(s, Dropped(s, c))
  {
    hide PcInv, Holds, RowsInv;
    RowsDependOnTables(s, Dropped(s, c));
    forall d | d in Dropped(s, c).callers
      ensures PcInv(h, Dropped(s, c), Dropped(s, c).callers[d])
    {
      PcDependsOnTables(h, s, Dropped(s, c), s.callers[d]);
    }
  }

  lemma StepKeepsInv(h: Hashing, s: System, step: Step)
    requires KindsApart(h) && Inv(h, s)
    ensures Inv(h, Apply(h, s, step)) && Rely(s, Apply(h, s, step))
  {
    hide LockInv, RowsInv, PcInv, Advanced;
    match step
    case Process(c, r) =>
      if c !in s.callers {
        NewcomersHoldNothing(h, s, r);
        JoinKeepsInv(h, s, c, Locking(r, 0));
      }
    case Submit(c, tenant, key, input) =>
      if c !in s.callers && 1 <= |key| <= 200 {
        SubmitKeepsInv(h, s, c, (tenant, key), input);
      }
    case Advance(c, choice) =>
      if CanAdvance(h, s, c) {
        AdvanceKeepsInv(h, s, c, choice);
      }
    case Crash(c) => CrashKeepsInv(h, s, c);
  }

  lemma NewcomersHoldNothing(h: Hashing, s: System, r: Request)
    ensures PcInv(h, s, Locking(r, 0)) && forall k :: !Holds(h, Locking(r, 0), k)
  {
    KeysAreSorted(h, r);
  }

  lemma BindKeepsInv(h: Hashing, s: System, k: IntakeKey, input: string)
    requires Inv(h, s)
    ensures Inv(h, Bound(s, k, input, false)) && Rely(s, Bound(s, k, input, false))
  {
    var b := Bound(s, k, input, false);
    BindKeepsRows(s, k, input, false);
    BindGrows(s, k, input, false);
    BoundLogsNothing(s, k, input, false);
    hide RowsInv, PcInv, Rely, Bound, Holds;
    forall d | d in b.callers
      ensures PcInv(h, b, b.callers[d])
    {
      SameRowsLeaveAlone(s, b, s.callers[d]);
      LeftAloneStays(h, s, b, s.callers[d]);
    }
  }

  lemma SameRowsLeaveAlone(s: System, b: System, pc: Pc)
    requires Rely(s, b) && (b.rows == s.rows || SameTables(s, b))
    ensures LeavesAlone(s, b, pc)
  {
    hide Rely;
  }

  lemma SubmitKeepsInv(h: Hashing, s: System, c: CallerId, k: IntakeKey, input: string)
    requires Inv(h, s) && c !in s.callers
    ensures Inv(h, Submitted(s, c, k, input)) && Rely(s, Submitted(s, c, k, input))
  {
    var b := Bound(s, k, input, false);
    BindKeepsInv(h, s, k, input);
    BoundLogsNothing(s, k, input, false);
    var pc := if b.intakes[k].input != input then Done(Conflict("IDEMPOTENCY_KEY_CONFLICT"))
              else Working(None, b.intakes[k].investigation);
    PlainHoldsNothing(h, b, pc);
    hide Inv, PcInv, Rely, Bound, Holds;
    JoinKeepsInv(h, b, c, pc);
    RelyDependsOnTables(s, b, At(b, c, pc));
  }

  lemma PlainHoldsNothing(h: Hashing, s: System, pc: Pc)
    requires pc == Done(Conflict("IDEMPOTENCY_KEY_CONFLICT")) || (pc.Working? && pc.nest.None?)
    ensures PcInv(h, s, pc) && forall k :: !Holds(h, pc, k)
  {
  }

  lemma {:induction false} RunKeepsInv(h: Hashing, run: seq<Step>)
    requires KindsApart(h)
    ensures Inv(h, After(h, run))
  {
    if run != [] {
      RunKeepsInv(h, run[..|run| - 1]);
      StepKeepsInv(h, After(h, run[..|run| - 1]), run[|run| - 1]);
    }
  }
}
