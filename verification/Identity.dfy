/** The delivery idempotency key of an alert intent, and why it identifies exactly one intent. */
module Identity {

  datatype Transition = INITIAL_OK | FIRED | STILL_FIRING | RESOLVED | STILL_OK | UNMEASURED

  datatype AlertState = OK | FIRING | CALM  // CALM is the stored state 'RESOLVED'

  datatype Assessment = Unmeasured | Measured(breached: bool)

  function TransitionName(t: Transition): string {
    match t
    case INITIAL_OK => "INITIAL_OK"
    case FIRED => "FIRED"
    case STILL_FIRING => "STILL_FIRING"
    case RESOLVED => "RESOLVED"
    case STILL_OK => "STILL_OK"
    case UNMEASURED => "UNMEASURED"
  }

  /** Decimal digits of `n`, most significant first. */
  function Digits(n: nat): (s: string)
    ensures |s| > 0
  {
    var last := [(48 + n % 10) as char];
    if n < 10 then last else Digits(n / 10) + last
  }

  function DeliveryIdempotencyKey(tenantId: string, evaluationId: nat, transition: Transition): string {
    tenantId + ":" + Digits(evaluationId) + ":" + TransitionName(transition)
  }

  lemma {:induction false} DigitsHaveNoColon(n: nat)
    ensures ':' !in Digits(n)
  {
    if n >= 10 {
      DigitsHaveNoColon(n / 10);
    }
  }

  lemma {:induction false} DigitsAreInjective(a: nat, b: nat)
    requires Digits(a) == Digits(b)
    ensures a == b
  {
    var s, t := Digits(a), Digits(b);
    assert s[|s| - 1] == (48 + a % 10) as char && t[|t| - 1] == (48 + b % 10) as char;
    assert a % 10 == b % 10;
    if a >= 10 && b >= 10 {
      assert Digits(a / 10) == s[..|s| - 1] == t[..|t| - 1] == Digits(b / 10);
      DigitsAreInjective(a / 10, b / 10);
    }
  }

  function Pow10(k: nat): nat {
    if k == 0 then 1 else 10 * Pow10(k - 1)
  }

  lemma {:induction false} DigitsLength(n: nat, k: nat)
    requires k >= 1 && n < Pow10(k)
    ensures |Digits(n)| <= k
  {
    if n >= 10 {
      DigitsLength(n / 10, k - 1);
    }
  }

  /** Only the last ':' separates, so a ':' in the left part does no harm. */
  lemma SplitAtLastColon(a: string, b: string, c: string, d: string)
    requires a + ":" + b == c + ":" + d
    requires ':' !in b && ':' !in d
    ensures a == c && b == d
  {
    var s, t := a + ":" + b, c + ":" + d;
    assert s[|a|] == ':' && t[|c|] == ':';
    assert forall i | |a| < i < |s| :: s[i] == b[i - |a| - 1];
    assert forall i | |c| < i < |t| :: t[i] == d[i - |c| - 1];
    assert |a| == |c|;
    assert a == s[..|a|] && c == t[..|c|];
    assert b == s[|a| + 1..] && d == t[|c| + 1..];
  }

  lemma TransitionNamesAreInjective(t: Transition, u: Transition)
    ensures ':' !in TransitionName(t)
    ensures TransitionName(t) == TransitionName(u) ==> t == u
  {
    var s, r := TransitionName(t), TransitionName(u);
    if s == r {
      assert |s| == |r| && s[0] == r[0];
      assert |s| > 6 ==> s[6] == r[6];
    }
  }

  lemma KeyEnds(tenantId: string, evaluationId: nat, t: Transition)
    ensures DeliveryIdempotencyKey(tenantId, evaluationId, t) == tenantId + ":" + Digits(evaluationId) + (":" + TransitionName(t))
  {
    hide Digits, TransitionName;
  }

  /** The key of each transition, spelled out. */
  lemma KeySpelling(tenantId: string, evaluationId: nat)
    ensures var head := tenantId + ":" + Digits(evaluationId);
            && DeliveryIdempotencyKey(tenantId, evaluationId, FIRED) == head + ":FIRED"
            && DeliveryIdempotencyKey(tenantId, evaluationId, RESOLVED) == head + ":RESOLVED"
            && DeliveryIdempotencyKey(tenantId, evaluationId, STILL_FIRING) == head + ":STILL_FIRING"
            && DeliveryIdempotencyKey(tenantId, evaluationId, INITIAL_OK) == head + ":INITIAL_OK"
            && DeliveryIdempotencyKey(tenantId, evaluationId, STILL_OK) == head + ":STILL_OK"
            && DeliveryIdempotencyKey(tenantId, evaluationId, UNMEASURED) == head + ":UNMEASURED"
  {
    KeyEnds(tenantId, evaluationId, FIRED);
    KeyEnds(tenantId, evaluationId, RESOLVED);
    KeyEnds(tenantId, evaluationId, STILL_FIRING);
    KeyEnds(tenantId, evaluationId, INITIAL_OK);
    KeyEnds(tenantId, evaluationId, STILL_OK);
    KeyEnds(tenantId, evaluationId, UNMEASURED);
    hide Digits, DeliveryIdempotencyKey;
    NamesAreSpelled();
  }

  lemma NamesAreSpelled()
    ensures ":" + TransitionName(FIRED) == ":FIRED" && ":" + TransitionName(RESOLVED) == ":RESOLVED"
    ensures ":" + TransitionName(STILL_FIRING) == ":STILL_FIRING" && ":" + TransitionName(INITIAL_OK) == ":INITIAL_OK"
    ensures ":" + TransitionName(STILL_OK) == ":STILL_OK" && ":" + TransitionName(UNMEASURED) == ":UNMEASURED"
  {
  }

  /** The digits are those of the number, read from the left. */
  lemma {:induction false} DigitsReadBack(n: nat)
    ensures ValueOf(Digits(n)) == n
  {
    if n >= 10 {
      var last := [(48 + n % 10) as char];
      DigitsReadBack(n / 10);
      assert (Digits(n / 10) + last)[..|Digits(n / 10)|] == Digits(n / 10);
    }
  }

  function ValueOf(s: string): int {
    if s == [] then 0 else 10 * ValueOf(s[..|s| - 1]) + (s[|s| - 1] as int - '0' as int)
  }

  /** The key is injective for every tenant, including tenants that contain ':'. */
  lemma KeyIsInjective(t1: string, e1: nat, r1: Transition, t2: string, e2: nat, r2: Transition)
    requires DeliveryIdempotencyKey(t1, e1, r1) == DeliveryIdempotencyKey(t2, e2, r2)
    ensures t1 == t2 && e1 == e2 && r1 == r2
  {
    TransitionNamesAreInjective(r1, r2);
    TransitionNamesAreInjective(r2, r1);
    DigitsHaveNoColon(e1);
    DigitsHaveNoColon(e2);
    SplitAtLastColon(t1 + ":" + Digits(e1), TransitionName(r1), t2 + ":" + Digits(e2), TransitionName(r2));
    SplitAtLastColon(t1, Digits(e1), t2, Digits(e2));
    DigitsAreInjective(e1, e2);
  }

  /** A bigint evaluation id and a tenant of at most 100 characters fit the 500-character column. */
  lemma KeyFitsItsColumn(tenantId: string, evaluationId: nat, transition: Transition)
    requires |tenantId| <= 100 && evaluationId < 0x8000_0000_0000_0000
    ensures 1 <= |DeliveryIdempotencyKey(tenantId, evaluationId, transition)| <= 500
  {
    assert Pow10(5) == 100_000;
    assert Pow10(10) == 100_000 * Pow10(5);
    assert Pow10(15) == 100_000 * Pow10(10);
    assert Pow10(19) == 10_000 * Pow10(15);
    DigitsLength(evaluationId, 19);
    assert |TransitionName(transition)| <= 12;
  }
}
