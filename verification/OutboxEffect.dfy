/** At-least-once sending under one key per intent, and what a receiver that drops repeated keys makes of it. */
module OutboxEffect {
  import opened Wrappers
  import opened Identity
  import opened OutboxTables
  import opened OutboxInvariant
  import opened Delivery
  import opened OutboxSystem
  import opened OutboxHistory
  import opened OutboxLedger

  /** What a receiver applies: the first request it takes in under each idempotency key. */
  function Applied(wire: seq<Send>): seq<Send> {
    if wire == [] then []
    else
      var before, last := Applied(wire[..|wire| - 1]), wire[|wire| - 1];
      if last.accepted && forall k | 0 <= k < |before| :: before[k].idempotencyKey != last.idempotencyKey
      then before + [last] else before
  }

  /** How often the effect of one intent was applied. */
  function EffectsOf(sends: seq<Send>, id: nat): nat {
    if sends == [] then 0
    else EffectsOf(sends[..|sends| - 1], id) + if sends[|sends| - 1].outboxId == id then 1 else 0
  }

  ghost predicate Reached(wire: seq<Send>, id: nat) {
    exists k :: 0 <= k < |wire| && wire[k].outboxId == id && wire[k].accepted
  }

  ghost predicate WireInv(s: System) {
    && (forall k | 0 <= k < |s.wire| ::
          && s.wire[k].outboxId in s.db.outbox
          && var i := s.db.outbox[s.wire[k].outboxId].intent;
             s.wire[k].idempotencyKey == i.idempotencyKey && s.wire[k].payload == i.payload)
    && (forall t | t in s.tasks && s.tasks[t].Answered? && Classify2xx(s.tasks[t].reply) :: Reached(s.wire, t.outboxId))
    && (forall id | id in s.db.outbox && s.db.outbox[id].state == DELIVERED :: Reached(s.wire, id))
  }

  predicate Classify2xx(r: Reply) {
    r.Status? && 200 <= r.code < 300
  }

  lemma SentOnReached(wire: seq<Send>, send: Send, id: nat)
    ensures Reached(wire, id) ==> Reached(wire + [send], id)
    ensures send.accepted && send.outboxId == id ==> Reached(wire + [send], id)
  {
    var w := wire + [send];
    assert w[|wire|] == send;
    if Reached(wire, id) {
      var k :| 0 <= k < |wire| && wire[k].outboxId == id && wire[k].accepted;
      assert w[k] == wire[k];
    }
  }

  lemma DeliveredComesFromA2xx(s: System, step: Step, id: nat)
    requires Inv(s) && WireInv(s) && id in s.db.outbox
    requires id in Apply(s, step).db.outbox && Apply(s, step).db.outbox[id].state == DELIVERED
    ensures Reached(s.wire, id)
  {
    hide RowInv, Rely, DbInv;
    RowChangesBy(s, step, id);
    if s.db.outbox[id].state != DELIVERED {
      assert IsOutcome(s, step, id);
      assert TaskInv(s.db, step.ticket, s.tasks[step.ticket]);
      DecisionsAreWellFormed(s.tasks[step.ticket].reply);
    }
  }

  lemma PostKeepsWire(s: System, t: Ticket, reply: Reply, accepted: bool, startedAt: Time, completedAt: Time)
    requires Inv(s) && WireInv(s) && CanPost(s, t, reply, accepted)
    ensures WireInv(Apply(s, Post(t, reply, accepted, startedAt, completedAt)))
  {
    hide RowInv, Rely, DbInv, Reached;
    assert TaskInv(s.db, t, s.tasks[t]);
    var l := s.tasks[t].lease;
    var send := Send(l.outboxId, l.intent.idempotencyKey, l.intent.payload, accepted);
    var s' := Apply(s, Post(t, reply, accepted, startedAt, completedAt));
    assert s'.wire == s.wire + [send];
    hide Apply, Faithful;
    forall u | u in s'.tasks && s'.tasks[u].Answered? && Classify2xx(s'.tasks[u].reply)
      ensures Reached(s'.wire, u.outboxId)
    {
      SentOnReached(s.wire, send, u.outboxId);
    }
    forall id | id in s'.db.outbox && s'.db.outbox[id].state == DELIVERED
      ensures Reached(s'.wire, id)
    {
      SentOnReached(s.wire, send, id);
    }
  }

  lemma NothingIsSent(s: System, step: Step)
    requires !(step.Post? && CanPost(s, step.ticket, step.reply, step.accepted))
    ensures Apply(s, step).wire == s.wire
    ensures forall t | t in Apply(s, step).tasks && Apply(s, step).tasks[t].Answered? ::
              t in s.tasks && s.tasks[t] == Apply(s, step).tasks[t]
  {
    hide RecordTask;
  }

  lemma SendsStayKeyed(s: System, s': System)
    requires WireInv(s) && Rely(s.db, s'.db) && s'.wire == s.wire
    ensures forall k | 0 <= k < |s'.wire| ::
              && s'.wire[k].outboxId in s'.db.outbox
              && var i := s'.db.outbox[s'.wire[k].outboxId].intent;
                 s'.wire[k].idempotencyKey == i.idempotencyKey && s'.wire[k].payload == i.payload
  {
    forall k | 0 <= k < |s'.wire|
      ensures s'.wire[k].outboxId in s'.db.outbox
      ensures s'.db.outbox[s'.wire[k].outboxId].intent == s.db.outbox[s.wire[k].outboxId].intent
    {
      RowsStay(s.db, s'.db, s.wire[k].outboxId);
    }
  }

  lemma StepKeepsWire(s: System, step: Step)
    requires Inv(s) && WireInv(s)
    ensures WireInv(Apply(s, step))
  {
    hide RowInv, Rely, DbInv, TaskInv;
    var s' := Apply(s, step);
    StepIsSound(s, step);
    if step.Post? && CanPost(s, step.ticket, step.reply, step.accepted) {
      PostKeepsWire(s, step.ticket, step.reply, step.accepted, step.startedAt, step.completedAt);
    } else {
      NothingIsSent(s, step);
      hide Apply;
      SendsStayKeyed(s, s');
      forall id | id in s'.db.outbox && s'.db.outbox[id].state == DELIVERED
        ensures Reached(s'.wire, id)
      {
        if id in s.db.outbox {
          DeliveredComesFromA2xx(s, step, id);
        } else {
          RowAppearsBy(s, step, id);
        }
      }
    }
  }

  lemma {:induction false} RunKeepsWire(run: seq<Step>)
    ensures WireInv(After(run))
  {
    if run != [] {
      RunKeepsWire(Before(run));
      RunKeepsInv(Before(run));
      StepKeepsWire(After(Before(run)), Last(run));
    }
  }

  lemma IntentsHaveTheirOwnKeys(db: Db, i: nat, j: nat)
    requires DbInv(db) && i in db.outbox && j in db.outbox
    requires db.outbox[i].intent.idempotencyKey == db.outbox[j].intent.idempotencyKey
    ensures i == j
  {
    assert RowOk(db, i) && RowOk(db, j);
    var a, b := db.outbox[i].intent, db.outbox[j].intent;
    KeyIsInjective(a.tenantId, a.evaluationId, a.transition, b.tenantId, b.evaluationId, b.transition);
  }

  /** Retries, takeovers and re-drives resend the same key and payload; different intents never share a key. */
  lemma SendsAreStable(run: seq<Step>, j: nat, k: nat)
    requires j < |After(run).wire| && k < |After(run).wire|
    ensures var a, b := After(run).wire[j], After(run).wire[k];
            && (a.outboxId == b.outboxId ==> a.idempotencyKey == b.idempotencyKey && a.payload == b.payload)
            && (a.idempotencyKey == b.idempotencyKey ==> a.outboxId == b.outboxId)
  {
    hide RowInv, Rely, DbInv, TaskInv;
    RunKeepsInv(run);
    RunKeepsWire(run);
    var s := After(run);
    if s.wire[j].idempotencyKey == s.wire[k].idempotencyKey {
      IntentsHaveTheirOwnKeys(s.db, s.wire[j].outboxId, s.wire[k].outboxId);
    }
  }

  /** Keys and intents determine each other on this wire. */
  ghost predicate KeyedByIntent(wire: seq<Send>) {
    forall j, k | 0 <= j < |wire| && 0 <= k < |wire| ::
      wire[j].outboxId == wire[k].outboxId <==> wire[j].idempotencyKey == wire[k].idempotencyKey
  }

  lemma {:induction false} AppliedComesFromTheWire(wire: seq<Send>)
    ensures forall a | a in Applied(wire) :: a in wire && a.accepted
  {
    if wire != [] {
      AppliedComesFromTheWire(wire[..|wire| - 1]);
    }
  }

  lemma {:induction false} NoEffectUnlessApplied(sends: seq<Send>, id: nat)
    ensures EffectsOf(sends, id) >= 1 <==> exists a :: a in sends && a.outboxId == id
  {
    if sends != [] {
      var before, last := sends[..|sends| - 1], sends[|sends| - 1];
      NoEffectUnlessApplied(before, id);
      assert sends == before + [last];
      assert forall a :: a in sends <==> a in before || a == last;
    }
  }

  /** On a wire keyed by intent, the receiver applies an intent once if any request of it got through, else never. */
  lemma {:induction false} ReceiverAppliesOnce(wire: seq<Send>, id: nat)
    requires KeyedByIntent(wire)
    ensures EffectsOf(Applied(wire), id) == if Reached(wire, id) then 1 else 0
  {
    if wire != [] {
      var before, last := wire[..|wire| - 1], wire[|wire| - 1];
      ReceiverAppliesOnce(before, id);
      assert wire == before + [last];
      OneMoreSend(before, last, id);
      OneMoreApplied(before, last, id);
      hide EffectsOf, KeyedByIntent, Reached, Applied;
    }
  }

  lemma OneMoreSend(before: seq<Send>, last: Send, id: nat)
    ensures Reached(before + [last], id) <==> Reached(before, id) || (last.accepted && last.outboxId == id)
  {
    SentOnReached(before, last, id);
  }

  lemma OneMoreApplied(before: seq<Send>, last: Send, id: nat)
    requires KeyedByIntent(before + [last])
    ensures var was := EffectsOf(Applied(before), id);
            EffectsOf(Applied(before + [last]), id)
            == if last.accepted && last.outboxId == id && was == 0 then 1 else was
  {
    var wire, applied := before + [last], Applied(before);
    assert wire[..|wire| - 1] == before;
    AppliedComesFromTheWire(before);
    NoEffectUnlessApplied(applied, id);
    SameKeyMeansSameIntent(wire, applied, last);
    OneMoreEffect(applied, last, id);
    hide EffectsOf, KeyedByIntent;
  }

  lemma OneMoreEffect(applied: seq<Send>, last: Send, id: nat)
    ensures EffectsOf(applied + [last], id) == EffectsOf(applied, id) + if last.outboxId == id then 1 else 0
  {
    assert (applied + [last])[..|applied|] == applied;
  }

  lemma SameKeyMeansSameIntent(wire: seq<Send>, applied: seq<Send>, last: Send)
    requires KeyedByIntent(wire) && last in wire
    requires forall a | a in applied :: a in wire
    ensures (exists k :: 0 <= k < |applied| && applied[k].idempotencyKey == last.idempotencyKey)
            <==> exists a :: a in applied && a.outboxId == last.outboxId
  {
    forall k | 0 <= k < |applied|
      ensures applied[k].idempotencyKey == last.idempotencyKey <==> applied[k].outboxId == last.outboxId
    {
      assert applied[k] in applied;
    }
  }

  /**
   Effectively once: over all runs, with crashes before or after the POST, takeovers and re-drives, a receiver
   that drops repeated keys applies each intent at most once, and exactly once if its row is DELIVERED.
   */
  lemma EffectivelyOnce(run: seq<Step>, id: nat)
    ensures EffectsOf(Applied(After(run).wire), id) <= 1
    ensures id in After(run).db.outbox && After(run).db.outbox[id].state == DELIVERED ==>
              EffectsOf(Applied(After(run).wire), id) == 1
  {
    hide RowInv, Rely, DbInv, TaskInv;
    RunKeepsWire(run);
    var wire := After(run).wire;
    forall j, k | 0 <= j < |wire| && 0 <= k < |wire|
      ensures wire[j].outboxId == wire[k].outboxId <==> wire[j].idempotencyKey == wire[k].idempotencyKey
    {
      SendsAreStable(run, j, k);
    }
    ReceiverAppliesOnce(wire, id);
  }
}
