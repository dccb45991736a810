/** Shadow rows in place: claims taken in key order and given back in reverse, completion under the claim. */
module ShadowRepository {
  import opened Wrappers
  import opened ShadowSystem
  import opened ShadowInvariant
  import opened ShadowTheorems

  datatype Tables = Tables(rows: map<ShadowId, ShadowRow>, events: seq<Event>, next: ShadowId)

  /** What other sessions may do: a row is inserted or completed only under locks that this one does not hold. */
  ghost predicate Continues(h: Hashing, a: Tables, b: Tables, held: set<int>) {
    && a.events <= b.events && a.next <= b.next
    && (forall i | i in a.rows ::
          && i in b.rows && b.rows[i].key == a.rows[i].key && b.rows[i].payload == a.rows[i].payload
          && (a.rows[i].status.Finished? || h(CaseLock(a.rows[i].payload)) in held ==> b.rows[i] == a.rows[i]))
    && (forall i | i in b.rows && i !in a.rows ::
          h(CaseLock(b.rows[i].payload)) !in held && h(ForKey(b.rows[i].payload.tenant, b.rows[i].key)) !in held)
  }

  lemma ContinuesIsTransitive(h: Hashing, a: Tables, b: Tables, c: Tables, held: set<int>, more: set<int>)
    requires held <= more && Continues(h, a, b, held) && Continues(h, b, c, more)
    ensures Continues(h, a, c, held)
  {
  }

  lemma ContinuesIsReflexive(h: Hashing, a: Tables, held: set<int>)
    ensures Continues(h, a, a, held)
  {
  }

  /** Under both keys of a request, what the select saw is what the insert meets. */
  lemma MatchesStay(h: Hashing, a: Tables, b: Tables, held: set<int>, r: Request)
    requires Continues(h, a, b, held) && h(KeyLock(r)) in held && h(CaseLock(r.payload)) in held
    ensures Matching(b.rows, r) == Matching(a.rows, r)
  {
    forall i | i in b.rows && i !in a.rows
      ensures !Matches(b.rows[i], r)
    {
    }
    assert forall i | i in a.rows :: Matches(b.rows[i], r) <==> Matches(a.rows[i], r);
  }

  class ShadowClaim {
    const repository: Repository
    const keys: seq<int>
    var released: bool

    constructor (repository: Repository, keys: seq<int>)
      ensures this.repository == repository && this.keys == keys && !released
    {
      this.repository, this.keys, released := repository, keys, false;
    }

    method Release()
      modifies this, repository`held, repository`trace
      ensures released
      ensures repository.held == if old(released) then old(repository.held) else old(repository.held) - KeySet(keys)
      ensures repository.trace == old(repository.trace) + if old(released) then [] else Given(keys)
    {
      if released {
        return;
      }
      released := true;
      repository.UnlockReversed(keys);
    }
  }

  function KeySet(keys: seq<int>): set<int> {
    set k | k in keys
  }

  /** What a session did to the advisory locks, in order. */
  datatype LockAct = Took(key: int) | Gave(key: int)

  function Taken(keys: seq<int>): seq<LockAct> {
    if keys == [] then [] else Taken(keys[..|keys| - 1]) + [Took(keys[|keys| - 1])]
  }

  /** The last key is given back first. */
  function Given(keys: seq<int>): seq<LockAct> {
    if keys == [] then [] else Given(keys[1..]) + [Gave(keys[0])]
  }

  lemma NoKeys(keys: seq<int>)
    requires keys == []
    ensures KeySet(keys) == {} && Taken(keys) == []
  {
  }

  lemma NextKey(keys: seq<int>, i: nat)
    requires i < |keys| && forall m, n | 0 <= m < n < |keys| :: keys[m] < keys[n]
    ensures keys[i] !in KeySet(keys[..i])
    ensures KeySet(keys[..i + 1]) == KeySet(keys[..i]) + {keys[i]}
    ensures Taken(keys[..i + 1]) == Taken(keys[..i]) + [Took(keys[i])]
  {
    assert keys[..i + 1] == keys[..i] + [keys[i]] && keys[..i + 1][..i] == keys[..i];
    assert forall k | k in keys[..i] :: k < keys[i];
  }

  class Repository {
    const hash: Hashing
    var rows: map<ShadowId, ShadowRow>
    var events: seq<Event>
    var next: ShadowId
    var held: set<int>
    ghost var trace: seq<LockAct>

    constructor (hash: Hashing)
      ensures Valid() && Now() == Tables(map[], [], 0) && held == {} && trace == [] && this.hash == hash
    {
      this.hash := hash;
      rows, events, next, held, trace := map[], [], 0, {}, [];
    }

    ghost function Now(): Tables
      reads this
    {
      Tables(rows, events, next)
    }

    ghost predicate Valid()
      reads this
    {
      UniqueRows(rows, next)
    }

    method OtherSessions()
      requires Valid()
      modifies this`rows, this`events, this`next
      ensures Valid() && Continues(hash, old(Now()), Now(), held)
    {
      ContinuesIsReflexive(hash, Now(), held);
    }

    method Lock(k: int)
      requires Valid() && k !in held
      modifies this
      ensures Valid() && held == old(held) + {k} && Continues(hash, old(Now()), Now(), old(held))
      ensures trace == old(trace) + [Took(k)]
    {
      OtherSessions();  // while blocked
      held, trace := held + {k}, trace + [Took(k)];
    }

    method UnlockReversed(keys: seq<int>)
      modifies this`held, this`trace
      ensures held == old(held) - KeySet(keys) && trace == old(trace) + Given(keys)
    {
      var n := |keys|;
      while n > 0
        invariant 0 <= n <= |keys|
        invariant held == old(held) - KeySet(keys[n..]) && trace == old(trace) + Given(keys[n..])
      {
        n := n - 1;
        assert keys[n..] == [keys[n]] + keys[n + 1..];
        held, trace := held - {keys[n]}, trace + [Gave(keys[n])];
      }
      assert keys[0..] == keys;
    }

    method InsertEvent(e: Event)
      modifies this`events
      ensures events == old(events) + [e]
    {
      events := events + [e];
    }

    /**
     Locks the two keys in order, then finds the one row of the request or inserts it. A claim is given out, with
     both locks, only for the started row of this very payload; every other way out gives the locks back.
     */
    method BeginOrObserve(r: Request) returns (result: Result<ShadowId, string>, claim: ShadowClaim?)
      requires Valid() && held == {}
      modifies this
      ensures Valid() && Continues(hash, old(Now()), Now(), {})
      ensures claim == null ==> held == {} && trace == old(trace) + Taken(Keys(hash, r)) + Given(Keys(hash, r))
      ensures claim != null ==>
                && trace == old(trace) + Taken(Keys(hash, r))
                && fresh(claim) && !claim.released && claim.repository == this && claim.keys == Keys(hash, r)
                && held == KeySet(Keys(hash, r))
                && result.Ok? && result.value in rows && rows[result.value].payload == r.payload
                && rows[result.value].status == Started && Matching(rows, r) == {result.value}
      ensures result.Ok? && claim == null ==>
                result.value in rows && rows[result.value].payload == r.payload && rows[result.value].status.Finished?
      ensures result.Err? ==> claim == null && result.error in {"SHADOW_IDENTITY_CONFLICT", "SHADOW_IDEMPOTENCY_CONFLICT"}
      ensures result.Err? <==> exists i :: i in rows && Matches(rows[i], r) && rows[i].payload != r.payload
      ensures result == Err("SHADOW_IDENTITY_CONFLICT") <==> |Matching(rows, r)| > 1
      ensures result == Err("SHADOW_IDEMPOTENCY_CONFLICT") ==>
                events != [] && events[|events| - 1].eventType == SHADOW_REQUEST_REJECTED
                && Matching(rows, r) == {events[|events| - 1].id}
    {
      hide UniqueRows, Continues, Matches, Matching, KeySet, Taken, Given;
      var keys := Keys(hash, r);
      KeysAreSorted(hash, r);
      LockAll(keys);
      ghost var locked := Now();
      claim := null;
      var found := Matching(rows, r);
      if |found| > 1 {
        TwoMatchesDiffer(rows, next, r);
        UnlockReversed(keys);
        NoneHeld(keys);
        return Err("SHADOW_IDENTITY_CONFLICT"), null;
      }
      if |found| == 1 {
        var id := TheOne(found);
        result := Observe(id, r, keys);
        OnlyOneMatches(rows, r, id);
        ContinuesIsTransitive(hash, old(Now()), locked, Now(), {}, {});
        if held != {} {
          claim := new ShadowClaim(this, keys);
        }
        return;
      }
      assert found == {};
      var id := Begin(r);
      OnlyOneMatches(rows, r, id);
      ContinuesIsTransitive(hash, old(Now()), locked, Now(), {}, {});
      claim := new ShadowClaim(this, keys);
      result := Ok(id);
    }

    /** In key order, blocking on each. */
    method LockAll(keys: seq<int>)
      requires Valid() && held == {} && forall i, j | 0 <= i < j < |keys| :: keys[i] < keys[j]
      modifies this
      ensures Valid() && Continues(hash, old(Now()), Now(), {})
      ensures held == KeySet(keys) && trace == old(trace) + Taken(keys)
    {
      hide UniqueRows, Continues, KeySet, Taken;
      NoKeys(keys[..0]);
      ContinuesIsReflexive(hash, Now(), {});
      for i := 0 to |keys|
        invariant Valid() && held == KeySet(keys[..i]) && Continues(hash, old(Now()), Now(), {})
        invariant trace == old(trace) + Taken(keys[..i])
      {
        ghost var before := Now();
        NextKey(keys, i);
        Lock(keys[i]);
        FewerLocks(hash, before, Now(), KeySet(keys[..i]), {});
        ContinuesIsTransitive(hash, old(Now()), before, Now(), {}, {});
      }
      assert keys[..|keys|] == keys;
    }

    /** A new row and its event, in two statements with nothing of others' on this row in between. */
    method Begin(r: Request) returns (id: ShadowId)
      requires Valid() && Matching(rows, r) == {} && KeySet(Keys(hash, r)) <= held
      modifies this`rows, this`next, this`events
      ensures Valid() && Continues(hash, old(Now()), Now(), {})
      ensures id !in old(rows) && id in rows && rows[id] == ShadowRow(r.key, r.payload, Started) && Matching(rows, r) == {id}
      ensures events != [] && events[|events| - 1] == Event(id, SHADOW_RUN_STARTED)
    {
      hide UniqueRows, Continues, Matching;
      KeysAreSorted(hash, r);
      OtherSessions();
      ghost var before := Now();
      MatchesStay(hash, old(Now()), before, held, r);
      FewerLocks(hash, old(Now()), before, held, {});
      id := Insert(r);
      ContinuesIsTransitive(hash, old(Now()), before, Now(), {}, {});
      before := Now();
      OtherSessions();
      MatchesStay(hash, before, Now(), held, r);
      RowStays(hash, before, Now(), held, id);
      FewerLocks(hash, before, Now(), held, {});
      ContinuesIsTransitive(hash, old(Now()), before, Now(), {}, {});
      before := Now();
      InsertEvent(Event(id, SHADOW_RUN_STARTED));
      EventContinues(hash, before, Now());
      ContinuesIsTransitive(hash, old(Now()), before, Now(), {}, {});
    }

    /** The row that the select found: keep the locks only if it can still be worked on. */
    method Observe(id: ShadowId, r: Request, keys: seq<int>) returns (result: Result<ShadowId, string>)
      requires Valid() && keys == Keys(hash, r) && held == KeySet(keys) && keys != [] && Matching(rows, r) == {id}
      modifies this`rows, this`events, this`next, this`held, this`trace
      ensures Valid() && Continues(hash, old(Now()), Now(), {}) && id in rows
      ensures held == {} || held == KeySet(keys)
      ensures trace == old(trace) + if held == {} then Given(keys) else []
      ensures held != {} ==> result == Ok(id) && rows[id].payload == r.payload && rows[id].status == Started
      ensures held == {} && result.Ok? ==> result == Ok(id) && rows[id].payload == r.payload && rows[id].status.Finished?
      ensures Matching(rows, r) == {id} && (result.Ok? <==> rows[id].payload == r.payload)
      ensures result.Err? ==> held == {} && result.error == "SHADOW_IDEMPOTENCY_CONFLICT"
      ensures result.Err? ==> events != [] && events[|events| - 1] == Event(id, SHADOW_REQUEST_REJECTED)
    {
      hide UniqueRows;
      KeysAreSorted(hash, r);
      assert id in Matching(rows, r);
      assert keys[0] in held;
      ContinuesIsReflexive(hash, Now(), {});
      var row := rows[id];
      if row.payload != r.payload {
        OtherSessions();
        MatchesStay(hash, old(Now()), Now(), held, r);
        FewerLocks(hash, old(Now()), Now(), held, {});
        InsertEvent(Event(id, SHADOW_REQUEST_REJECTED));
        UnlockReversed(keys);
        assert held == {};
        return Err("SHADOW_IDEMPOTENCY_CONFLICT");
      }
      if row.status != Started {
        UnlockReversed(keys);
        assert held == {};
      }
      result := Ok(id);
    }

    /** INSERT: both UNIQUE constraints hold because nothing matched under the locks. */
    method Insert(r: Request) returns (id: ShadowId)
      requires Valid() && Matching(rows, r) == {}
      modifies this`rows, this`next
      ensures Valid() && id !in old(rows) && rows == old(rows)[id := ShadowRow(r.key, r.payload, Started)]
      ensures Continues(hash, old(Now()), Now(), {}) && Matching(rows, r) == {id}
    {
      InsertKeepsUnique(rows, next, r);
      InsertedMatches(rows, next, r);
      hide UniqueRows, Matching;
      id := next;
      rows := rows[id := ShadowRow(r.key, r.payload, Started)];
      next := next + 1;
    }

    /** One transaction; only a row that is still started is completed, and only once. */
    method Complete(id: ShadowId, investigation: InvestigationId, output: string) returns (result: Result<ShadowRow, string>)
      requires Valid()
      modifies this`rows, this`events
      ensures Valid() && Continues(hash, old(Now()), Now(), {})
      ensures if id in old(rows) && old(rows)[id].status == Started
              then && result == Ok(rows[id])
                   && rows == old(rows)[id := old(rows)[id].(status := Finished(investigation, output))]
                   && events == old(events) + [Event(id, SHADOW_RUN_COMPLETED)]
              else result == Err("SHADOW_COMPLETION_CONFLICT") && Now() == old(Now())
    {
      ContinuesIsReflexive(hash, Now(), {});
      if id !in rows || rows[id].status != Started {
        return Err("SHADOW_COMPLETION_CONFLICT");
      }
      CompleteKeepsUnique(rows, next, id, Finished(investigation, output));
      CompletionContinues(hash, Now(), id, Finished(investigation, output));
      hide UniqueRows, Continues;
      rows := rows[id := rows[id].(status := Finished(investigation, output))];
      InsertEvent(Event(id, SHADOW_RUN_COMPLETED));
      result := Ok(rows[id]);
    }
  }

  lemma CompletionContinues(h: Hashing, a: Tables, id: ShadowId, status: Status)
    requires id in a.rows && a.rows[id].status == Started
    ensures Continues(h, a, Tables(a.rows[id := a.rows[id].(status := status)],
                                   a.events + [Event(id, SHADOW_RUN_COMPLETED)], a.next), {})
  {
  }

  lemma OnlyOneMatches(rows: map<ShadowId, ShadowRow>, r: Request, id: ShadowId)
    requires Matching(rows, r) == {id}
    ensures id in rows && Matches(rows[id], r) && forall i | i in rows && Matches(rows[i], r) :: i == id
    ensures |Matching(rows, r)| == 1
  {
    hide Matches;
    assert id in Matching(rows, r);
    assert forall i | i in rows && Matches(rows[i], r) :: i in Matching(rows, r);
  }

  lemma NoneHeld(keys: seq<int>)
    ensures KeySet(keys) - KeySet(keys) == {}
  {
  }

  lemma EventContinues(h: Hashing, a: Tables, b: Tables)
    requires b.rows == a.rows && b.next == a.next && a.events <= b.events
    ensures Continues(h, a, b, {})
  {
  }

  lemma RowStays(h: Hashing, a: Tables, b: Tables, held: set<int>, id: ShadowId)
    requires Continues(h, a, b, held) && id in a.rows && h(CaseLock(a.rows[id].payload)) in held
    ensures id in b.rows && b.rows[id] == a.rows[id]
  {
  }

  lemma FewerLocks(h: Hashing, a: Tables, b: Tables, held: set<int>, fewer: set<int>)
    requires Continues(h, a, b, held) && fewer <= held
    ensures Continues(h, a, b, fewer)
  {
  }

  lemma InsertedMatches(rows: map<ShadowId, ShadowRow>, id: ShadowId, r: Request)
    requires Matching(rows, r) == {} && id !in rows
    ensures Matching(rows[id := ShadowRow(r.key, r.payload, Started)], r) == {id}
  {
    forall i | i in rows
      ensures !Matches(rows[i], r)
    {
      assert i !in Matching(rows, r);
    }
  }

  /** A claim lives through whatever others do, so its holder's completion succeeds. */
  lemma ClaimSurvives(h: Hashing, a: Tables, b: Tables, r: Request, id: ShadowId)
    requires Continues(h, a, b, KeySet(Keys(h, r))) && id in a.rows && a.rows[id].payload == r.payload
    ensures id in b.rows && b.rows[id] == a.rows[id]
  {
    KeysAreSorted(h, r);
  }

  // ------------------------------------------------- the bound on the others

  ghost function TablesOf(s: System): Tables {
    Tables(s.rows, s.events, s.nextRow)
  }

  ghost function HeldBy(s: System, c: CallerId): set<int> {
    set k | k in s.locks && s.locks[k] == c
  }

  /** Every step that is not its own is, for a lock holder, one that `OtherSessions` allows. */
  lemma OthersContinue(h: Hashing, s: System, step: Step, c: CallerId)
    requires KindsApart(h) && Inv(h, s) && step.caller != c
    ensures Continues(h, TablesOf(s), TablesOf(Apply(h, s, step)), HeldBy(s, c))
  {
    StepKeepsInv(h, s, step);
    var s' := Apply(h, s, step);
    NumbersGrow(h, s, step);
    hide Inv, Apply, Continues, Rely;
    forall i | i in s'.rows && (i !in s.rows || s'.rows[i] != s.rows[i])
      ensures h(CaseLock(s'.rows[i].payload)) !in HeldBy(s, c)
      ensures i !in s.rows ==> h(ForKey(s'.rows[i].payload.tenant, s'.rows[i].key)) !in HeldBy(s, c)
    {
      RowsChangeUnderTheirLocks(h, s, step, i);
    }
    ChangesContinue(h, s, s', HeldBy(s, c));
  }

  lemma ChangesContinue(h: Hashing, s: System, s': System, held: set<int>)
    requires Rely(s, s') && s.nextRow <= s'.nextRow
    requires forall i | i in s'.rows && (i !in s.rows || s'.rows[i] != s.rows[i]) ::
               && h(CaseLock(s'.rows[i].payload)) !in held
               && (i !in s.rows ==> h(ForKey(s'.rows[i].payload.tenant, s'.rows[i].key)) !in held)
    ensures Continues(h, TablesOf(s), TablesOf(s'), held)
  {
    hide CaseLock;
  }

  lemma NumbersGrow(h: Hashing, s: System, step: Step)
    ensures s.nextRow <= Apply(h, s, step).nextRow
  {
    hide Keys, Matching, GiveBack, HoldsBoth, MovesOnlyRows, Selected, Chosen, Nested, Completed, Inserted;
    if step.Advance? && CanAdvance(h, s, step.caller) {
      match s.callers[step.caller]
      case Inserting(r) => InsertNumbers(h, s, step.caller, r);
      case Claimed(claim) => NestNumbers(h, s, step.caller, claim);
      case Completing(claim, i, output) => CompleteTables(h, s, step.caller, claim, i, output);
      case _ =>
    }
  }

  lemma InsertNumbers(h: Hashing, s: System, c: CallerId, r: Request)
    ensures s.nextRow <= Inserted(h, s, c, r).nextRow
  {
    hide Keys, Matching, HoldsBoth, MovesOnlyRows, GiveBack;
  }

  lemma NestNumbers(h: Hashing, s: System, c: CallerId, claim: Claim)
    ensures s.nextRow == Nested(h, s, c, claim).nextRow
  {
    hide Keys, HoldsBoth, MovesOnlyRows, GiveBack;
  }
}
