/** The terminal ledger forever equals the first terminal outcome of its intent. */
module OutboxLedger {
  import opened Wrappers
  import opened OutboxTables
  import opened OutboxOperations
  import opened OutboxInvariant
  import opened OutboxSystem
  import opened OutboxHistory

  /** The row as it was when it first became DELIVERED or DEAD_LETTER. */
  function FirstTerminal(run: seq<Step>, id: nat): Option<OutboxRow> {
    if run == [] then None
    else if FirstTerminal(Before(run), id).Some? then FirstTerminal(Before(run), id)
    else if id in After(run).db.outbox && Terminal(After(run).db.outbox[id].state) then Some(After(run).db.outbox[id])
    else None
  }

  function EverDeadLettered(run: seq<Step>, id: nat): bool {
    run != []
    && (EverDeadLettered(Before(run), id)
        || (id in After(run).db.outbox && After(run).db.outbox[id].state == DEAD_LETTER))
  }

  ghost predicate Mirrors(entry: LedgerRow, first: OutboxRow) {
    && entry.status == StatusFor(first.state)
    && entry.attemptCount == first.attemptCount
    && entry.httpStatus == first.lastHttpStatus
    && entry.errorClass == first.lastErrorClass
    && entry.completedAt == first.completedAt
  }

  lemma OutcomeWritesLedger(s: System, step: Step, id: nat)
    requires Inv(s) && id in s.db.outbox && IsOutcome(s, step, id)
    requires var row := Apply(s, step).db.outbox;
             id in row && Terminal(row[id].state)
    requires s.db.outbox[id].redriveCount == 0
    ensures var key := KeyOf(s.db.outbox[id].intent);
            key in Apply(s, step).db.ledger
            && Mirrors(Apply(s, step).db.ledger[key], Apply(s, step).db.outbox[id])
  {
    hide Rely, DbInv;
    var task := s.tasks[step.ticket];
    assert TaskInv(s.db, step.ticket, task);
    RecordSettlesOrLoses(s.db, task.lease, task.reply, task.startedAt, task.completedAt, step.base);
    UnsettledLedgerIsOpen(s.db, id);
  }

  lemma UnsettledLedgerIsOpen(db: Db, id: nat)
    requires DbInv(db) && id in db.outbox && !Terminal(db.outbox[id].state) && db.outbox[id].redriveCount == 0
    ensures var key := KeyOf(db.outbox[id].intent);
            key in db.ledger ==> db.ledger[key].status == CLAIMED
  {
    assert RowOk(db, id);
  }

  /** Only a dead-lettered row is ever re-driven, so before the first terminal outcome there was no re-drive. */
  lemma {:induction false} NoTerminalMeansNoRedrive(run: seq<Step>, id: nat)
    requires id in After(run).db.outbox && FirstTerminal(run, id) == None
    ensures After(run).db.outbox[id].redriveCount == 0 && !Terminal(After(run).db.outbox[id].state)
    ensures !EverDeadLettered(run, id)
  {
    hide RowInv, Rely, DbInv;
    if run != [] {
      var s, step := After(Before(run)), Last(run);
      RunKeepsInv(Before(run));
      if id in s.db.outbox {
        NoTerminalMeansNoRedrive(Before(run), id);
        RowChangesBy(s, step, id);
      } else {
        RowAppearsBy(s, step, id);
        NothingBeforeInsert(Before(run), id);
      }
    }
  }

  lemma {:induction false} NothingBeforeInsert(run: seq<Step>, id: nat)
    requires id !in After(run).db.outbox
    ensures FirstTerminal(run, id) == None && !EverDeadLettered(run, id)
  {
    hide RowInv, Rely, DbInv;
    if run != [] {
      RunKeepsInv(Before(run));
      StepIsSound(After(Before(run)), Last(run));
      RowsNeverVanish(After(Before(run)).db, After(run).db, id);
      NothingBeforeInsert(Before(run), id);
    }
  }

  lemma RowsNeverVanish(a: Db, b: Db, id: nat)
    requires Rely(a, b) && id !in b.outbox
    ensures id !in a.outbox
  {
  }

  lemma RowsStay(a: Db, b: Db, id: nat)
    requires Rely(a, b) && id in a.outbox
    ensures id in b.outbox && RowMoves(a.outbox[id], b.outbox[id])
  {
  }

  lemma TerminalLedgerStays(a: Db, b: Db, key: LedgerKey)
    requires Rely(a, b) && key in a.ledger && a.ledger[key].status != CLAIMED
    ensures key in b.ledger && b.ledger[key] == a.ledger[key]
  {
  }

  /** In every reachable state the ledger entry is the first terminal outcome, whatever re-drives achieved since. */
  lemma {:induction false} LedgerIsFirstTerminalOutcome(run: seq<Step>, id: nat)
    requires id in After(run).db.outbox && FirstTerminal(run, id).Some?
    ensures var key := KeyOf(After(run).db.outbox[id].intent);
            key in After(run).db.ledger && Mirrors(After(run).db.ledger[key], FirstTerminal(run, id).value)
  {
    hide RowInv, Rely, DbInv;
    var s, step := After(Before(run)), Last(run);
    RunKeepsInv(Before(run));
    StepIsSound(s, step);
    if id !in s.db.outbox {
      NothingBeforeInsert(Before(run), id);
      RowAppearsBy(s, step, id);
    } else {
      RowChangesBy(s, step, id);
      RowsStay(s.db, After(run).db, id);
      if FirstTerminal(Before(run), id).Some? {
        LedgerIsFirstTerminalOutcome(Before(run), id);
        TerminalLedgerStays(s.db, After(run).db, KeyOf(s.db.outbox[id].intent));
      } else {
        NoTerminalMeansNoRedrive(Before(run), id);
        assert IsOutcome(s, step, id);
        OutcomeWritesLedger(s, step, id);
      }
    }
  }

  lemma {:induction false} FirstTerminalTellsDeadLetter(run: seq<Step>, id: nat)
    requires id in After(run).db.outbox && FirstTerminal(run, id).Some?
    ensures Terminal(FirstTerminal(run, id).value.state)
    ensures FirstTerminal(run, id).value.state == DEAD_LETTER <==> EverDeadLettered(run, id)
    ensures FirstTerminal(run, id).value.state == DELIVERED ==> After(run).db.outbox[id].state == DELIVERED
  {
    hide RowInv, Rely, DbInv;
    var s, step := After(Before(run)), Last(run);
    RunKeepsInv(Before(run));
    StepIsSound(s, step);
    if id !in s.db.outbox {
      NothingBeforeInsert(Before(run), id);
    } else {
      RowsStay(s.db, After(run).db, id);
      if FirstTerminal(Before(run), id).Some? {
        FirstTerminalTellsDeadLetter(Before(run), id);
      } else {
        NoTerminalMeansNoRedrive(Before(run), id);
      }
    }
  }

  /** The ledger says FAILED exactly when the row was ever dead-lettered, even if a re-drive delivered it later. */
  lemma LedgerFailedIffEverDeadLettered(run: seq<Step>, id: nat)
    requires id in After(run).db.outbox
    ensures var key := KeyOf(After(run).db.outbox[id].intent);
            && ((key in After(run).db.ledger && After(run).db.ledger[key].status == LEDGER_FAILED)
                <==> EverDeadLettered(run, id))
            && ((key in After(run).db.ledger && After(run).db.ledger[key].status == LEDGER_DELIVERED)
                <==> After(run).db.outbox[id].state == DELIVERED && !EverDeadLettered(run, id))
  {
    hide RowInv, Rely, DbInv;
    RunKeepsInv(run);
    if FirstTerminal(run, id).Some? {
      LedgerIsFirstTerminalOutcome(run, id);
      FirstTerminalTellsDeadLetter(run, id);
    } else {
      NoTerminalMeansNoRedrive(run, id);
      UnsettledLedgerIsOpen(After(run).db, id);
    }
  }

  /** Once terminal, an entry never changes in any continuation. */
  lemma {:induction false} LedgerIsWrittenOnce(run: seq<Step>, more: seq<Step>, key: LedgerKey)
    requires key in After(run).db.ledger && After(run).db.ledger[key].status != CLAIMED
    ensures key in After(run + more).db.ledger && After(run + more).db.ledger[key] == After(run).db.ledger[key]
    decreases |more|
  {
    hide RowInv, Rely, DbInv;
    if more == [] {
      assert run + more == run;
    } else {
      LedgerIsWrittenOnce(run, Before(more), key);
      assert run + more == (run + Before(more)) + [Last(more)];
      AfterAppend(run + Before(more), Last(more));
      RunKeepsInv(run + Before(more));
      StepIsSound(After(run + Before(more)), Last(more));
      TerminalLedgerStays(After(run + Before(more)).db, After(run + more).db, key);
    }
  }
}
