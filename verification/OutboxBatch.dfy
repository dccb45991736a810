/** Which rows one lease call takes, and why leasing them together is a run of single leases. */
module OutboxBatch {
  import opened Wrappers
  import opened OutboxTables
  import opened OutboxOperations
  import opened OutboxSystem
  import opened OutboxHistory

  /** The rows the scan may take: eligible, and not locked by a competing transaction (SKIP LOCKED). */
  function Leasable(outbox: map<nat, OutboxRow>, now: Time, locked: set<nat>): set<nat> {
    set id | id in outbox && id !in locked && Eligible(outbox[id], now)
  }

  /** ORDER BY next_attempt_at, outbox_id. */
  predicate Precedes(outbox: map<nat, OutboxRow>, i: nat, j: nat)
    requires i in outbox && j in outbox
  {
    outbox[i].nextAttemptAt < outbox[j].nextAttemptAt
    || (outbox[i].nextAttemptAt == outbox[j].nextAttemptAt && i < j)
  }

  /** `ids` is the first `min(batchSize, n)` of the n candidates, in order. */
  ghost predicate IsBatch(outbox: map<nat, OutboxRow>, candidates: set<nat>, batchSize: nat, ids: seq<nat>)
    requires forall id | id in candidates :: id in outbox
  {
    && (forall k | 0 <= k < |ids| :: ids[k] in candidates)
    && (forall k, m | 0 <= k < m < |ids| :: Precedes(outbox, ids[k], ids[m]))
    && (forall k, j | 0 <= k < |ids| && j in candidates && j !in ids :: Precedes(outbox, ids[k], j))
    && |ids| == (if batchSize <= |candidates| then batchSize else |candidates|)
  }

  /** The same, in the terms of the scan: rows that are due and free, by due time and id, as many as asked for. */
  ghost predicate OldestDue(outbox: map<nat, OutboxRow>, now: Time, locked: set<nat>, batchSize: nat, ids: seq<nat>) {
    && (forall id | id in ids :: id in outbox && id !in locked && Eligible(outbox[id], now))
    && (forall k, m | 0 <= k < m < |ids| && ids[k] in outbox && ids[m] in outbox :: Earlier(outbox, ids[k], ids[m]))
    && (forall id, j | id in ids && id in outbox && j in outbox && j !in locked && Eligible(outbox[j], now) && j !in ids ::
          Earlier(outbox, id, j))
    && |ids| <= batchSize
    && (|ids| < batchSize ==> forall j | j in outbox && j !in locked && Eligible(outbox[j], now) :: j in ids)
  }

  predicate Earlier(outbox: map<nat, OutboxRow>, i: nat, j: nat)
    requires i in outbox && j in outbox
  {
    var a, b := outbox[i].nextAttemptAt, outbox[j].nextAttemptAt;
    a < b || (a == b && i < j)
  }

  lemma BatchIsOldestDue(outbox: map<nat, OutboxRow>, now: Time, locked: set<nat>, n: nat, ids: seq<nat>)
    requires IsBatch(outbox, Leasable(outbox, now, locked), n, ids) && Distinct(ids)
    ensures OldestDue(outbox, now, locked, n, ids)
  {
    hide Eligible;
    var all := Leasable(outbox, now, locked);
    assert forall j :: j in all <==> j in outbox && j !in locked && Eligible(outbox[j], now);
    if |ids| < n {
      AllTaken(all, ids);
    }
  }

  lemma {:induction false} AllTaken(all: set<nat>, ids: seq<nat>)
    requires Distinct(ids) && (forall k | 0 <= k < |ids| :: ids[k] in all) && |ids| == |all|
    ensures forall j | j in all :: j in ids
    decreases |ids|
  {
    if ids != [] {
      var last, before := ids[|ids| - 1], ids[..|ids| - 1];
      AllTaken(all - {last}, before);
      forall j | j in all
        ensures j in ids
      {
        if j != last {
          assert j in all - {last} && j in before;
        }
      }
    }
  }

  lemma {:induction false} EarliestExists(outbox: map<nat, OutboxRow>, candidates: set<nat>) returns (first: nat)
    requires candidates != {} && forall id | id in candidates :: id in outbox
    ensures first in candidates
    ensures forall j | j in candidates && j != first :: Precedes(outbox, first, j)
    decreases |candidates|
  {
    var pick :| pick in candidates;
    var rest := candidates - {pick};
    if rest == {} {
      first := pick;
      assert forall j | j in candidates && j != pick :: j in rest;
    } else {
      var best := EarliestExists(outbox, rest);
      assert forall j | j in candidates && j != pick :: j in rest;
      first := if Precedes(outbox, pick, best) then pick else best;
    }
  }

  /** The order leaves no choice: a batch is determined by the candidates and the size. */
  lemma {:induction false} BatchIsDetermined(outbox: map<nat, OutboxRow>, candidates: set<nat>, n: nat,
                                             a: seq<nat>, b: seq<nat>, k: nat)
    requires forall id | id in candidates :: id in outbox
    requires IsBatch(outbox, candidates, n, a) && IsBatch(outbox, candidates, n, b)
    requires k <= |a|
    ensures |a| == |b| && a[..k] == b[..k]
  {
    if k > 0 {
      BatchIsDetermined(outbox, candidates, n, a, b, k - 1);
      var x, y := a[k - 1], b[k - 1];
      assert forall m | 0 <= m < k - 1 :: a[m] == a[..k - 1][m] == b[..k - 1][m] == b[m];
      assert x in candidates && y in candidates;
      if x != y {
        assert !Precedes(outbox, x, y) || !Precedes(outbox, y, x);
        NotBefore(outbox, candidates, n, a, b, k - 1);
        NotBefore(outbox, candidates, n, b, a, k - 1);
      }
      assert a[..k] == a[..k - 1] + [x] && b[..k] == b[..k - 1] + [y];
    }
  }

  lemma NotBefore(outbox: map<nat, OutboxRow>, candidates: set<nat>, n: nat, a: seq<nat>, b: seq<nat>, k: nat)
    requires forall id | id in candidates :: id in outbox
    requires IsBatch(outbox, candidates, n, a) && IsBatch(outbox, candidates, n, b)
    requires k < |a| && k < |b| && a[..k] == b[..k]
    ensures a[k] == b[k] || Precedes(outbox, a[k], b[k])
  {
    assert forall m | 0 <= m < k :: a[m] == a[..k][m] == b[..k][m] == b[m];
    assert forall m | 0 <= m < k :: Precedes(outbox, b[m], b[k]) && b[m] != b[k];
    assert b[k] in candidates;
    if b[k] in a {
      var m :| 0 <= m < |a| && a[m] == b[k];
      assert m >= k;
    }
  }

  /** Leasing a list of rows one after the other. */
  function LeaseAll(outbox: map<nat, OutboxRow>, ids: seq<nat>, workerId: string, now: Time, leaseSeconds: Time)
    : map<nat, OutboxRow>
    requires forall k | 0 <= k < |ids| :: ids[k] in outbox
  {
    if ids == [] then outbox
    else
      var before := LeaseAll(outbox, ids[..|ids| - 1], workerId, now, leaseSeconds);
      var id := ids[|ids| - 1];
      if id in before then before[id := LeasedRow(before[id], workerId, now, leaseSeconds)] else before
  }

  lemma LeaseAllStep(outbox: map<nat, OutboxRow>, ids: seq<nat>, id: nat, workerId: string, now: Time, leaseSeconds: Time)
    requires Distinct(ids + [id]) && id in outbox
    requires forall m | 0 <= m < |ids| :: ids[m] in outbox
    ensures id !in ids
    ensures var before := LeaseAll(outbox, ids, workerId, now, leaseSeconds);
            && id in before && before[id] == outbox[id]
            && LeaseAll(outbox, ids + [id], workerId, now, leaseSeconds)
               == before[id := LeasedRow(outbox[id], workerId, now, leaseSeconds)]
  {
    assert (ids + [id])[..|ids|] == ids && (ids + [id])[|ids|] == id;
    forall m | 0 <= m < |ids|
      ensures ids[m] != id
    {
      assert (ids + [id])[m] == ids[m];
    }
    assert Distinct(ids) by {
      assert forall k | 0 <= k < |ids| :: (ids + [id])[k] == ids[k];
    }
    LeaseAllTouchesOnlyItsRows(outbox, ids, workerId, now, leaseSeconds);
    hide LeasedRow;
  }

  predicate Distinct(ids: seq<nat>) {
    forall k, m | 0 <= k < m < |ids| :: ids[k] != ids[m]
  }

  /** A batch bumps exactly its own rows by one attempt and leaves every other row untouched. */
  lemma {:induction false} LeaseAllTouchesOnlyItsRows(outbox: map<nat, OutboxRow>, ids: seq<nat>, workerId: string,
                                                      now: Time, leaseSeconds: Time)
    requires (forall k | 0 <= k < |ids| :: ids[k] in outbox) && Distinct(ids)
    ensures var after := LeaseAll(outbox, ids, workerId, now, leaseSeconds);
            && after.Keys == outbox.Keys
            && forall id | id in outbox ::
                 after[id] == if id in ids then LeasedRow(outbox[id], workerId, now, leaseSeconds) else outbox[id]
  {
    if ids != [] {
      var before, id := ids[..|ids| - 1], ids[|ids| - 1];
      LeaseAllTouchesOnlyItsRows(outbox, before, workerId, now, leaseSeconds);
      assert ids == before + [id];
      assert id !in before;
      assert forall i :: i in ids <==> i in before || i == id;
    }
  }

  function BatchSteps(ids: seq<nat>, workerId: string, now: Time, leaseSeconds: Time): seq<Step> {
    seq(|ids|, k requires 0 <= k < |ids| => LeaseRow(ids[k], workerId, now, leaseSeconds))
  }

  lemma LeaseTakesOneRow(s: System, id: nat, workerId: string, now: Time, leaseSeconds: Time)
    requires CanLease(s.db, id, workerId, now, leaseSeconds)
    ensures Apply(s, LeaseRow(id, workerId, now, leaseSeconds)).db
            == s.db.(outbox := s.db.outbox[id := LeasedRow(s.db.outbox[id], workerId, now, leaseSeconds)])
  {
  }

  /** One lease transaction is a run of single leases, so every reachable state of the code is one of the system. */
  lemma {:induction false} BatchIsARunOfLeases(run: seq<Step>, ids: seq<nat>, workerId: string, now: Time, leaseSeconds: Time)
    requires Distinct(ids)
    requires forall k | 0 <= k < |ids| ::
               ids[k] in After(run).db.outbox && CanLease(After(run).db, ids[k], workerId, now, leaseSeconds)
    ensures After(run + BatchSteps(ids, workerId, now, leaseSeconds)).db
            == After(run).db.(outbox := LeaseAll(After(run).db.outbox, ids, workerId, now, leaseSeconds))
  {
    var steps := BatchSteps(ids, workerId, now, leaseSeconds);
    if ids == [] {
      assert run + steps == run;
    } else {
      var before, id := ids[..|ids| - 1], ids[|ids| - 1];
      BatchIsARunOfLeases(run, before, workerId, now, leaseSeconds);
      var earlier := BatchSteps(before, workerId, now, leaseSeconds);
      assert run + steps == (run + earlier) + [LeaseRow(id, workerId, now, leaseSeconds)];
      AfterAppend(run + earlier, LeaseRow(id, workerId, now, leaseSeconds));
      LeaseAllTouchesOnlyItsRows(After(run).db.outbox, before, workerId, now, leaseSeconds);
      assert id !in before;
      LeaseTakesOneRow(After(run + earlier), id, workerId, now, leaseSeconds);
      hide Apply, LeasedRow, Eligible;
    }
  }
}
