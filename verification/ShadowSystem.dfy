/**
 Shadow runs as an interleaved system: any number of processors, each of which takes two sorted advisory locks,
 claims or observes one row, nests an investigation with its tool locks inside, and may crash anywhere; next to
 any number of plain intakes, under any idempotency keys, whose investigations take tool locks alone.
 */
module ShadowSystem {
  import opened Wrappers
  import opened Evidence
  import opened Identity

  type CallerId = nat
  type ShadowId = nat
  type InvestigationId = nat

  /** What `process` digests: the digest is injective, so it is the payload hash itself. */
  datatype Payload = Payload(tenant: string, caseId: string, caseVersion: string, processor: string, input: string, rest: string)

  datatype Request = Request(key: string, payload: Payload)

  datatype Status = Started | Finished(investigation: InvestigationId, output: string)

  datatype ShadowRow = ShadowRow(key: string, payload: Payload, status: Status)

  /** The strings that are hashed to advisory lock keys. */
  datatype LockName =
    | ForKey(tenant: string, key: string)
    | ForCase(tenant: string, caseId: string, caseVersion: string, processor: string)
    | ForTool(investigation: InvestigationId, tool: Tool)

  type Hashing = LockName -> int

  function KeyLock(r: Request): LockName {
    ForKey(r.payload.tenant, r.key)
  }

  function CaseLock(p: Payload): LockName {
    ForCase(p.tenant, p.caseId, p.caseVersion, p.processor)
  }

  /** `sorted({...})`: one key only, should the two collide. */
  function Keys(h: Hashing, r: Request): seq<int> {
    var a, b := h(KeyLock(r)), h(CaseLock(r.payload));
    if a < b then [a, b] else if b < a then [b, a] else [a]
  }

  /** The only thing asked of the hash: a tool's lock key is never also a shadow lock key. */
  ghost predicate KindsApart(h: Hashing) {
    forall a: LockName, b: LockName :: a.ForTool? && !b.ForTool? ==> h(a) != h(b)
  }

  datatype Answer = Fresh(id: ShadowId) | Replay(id: ShadowId) | Conflict(code: string) | Raised

  datatype Claim = Claim(request: Request, id: ShadowId)

  datatype Pc =
    | Locking(request: Request, taken: nat)                 // blocks on the next of its keys
    | Selecting(request: Request)                           // all keys taken
    | Refusing(request: Request, id: ShadowId)              // other payload: about to log the refusal
    | Inserting(request: Request)                           // saw no row
    | Announcing(claim: Claim)                              // row inserted, about to log the start
    | Claimed(claim: Claim)                                 // about to begin the nested intake
    | Working(nest: Option<Claim>, investigation: InvestigationId)
    | WantsTool(nest: Option<Claim>, investigation: InvestigationId, tool: Tool)
    | HasTool(nest: Option<Claim>, investigation: InvestigationId, tool: Tool)
    | Completing(claim: Claim, investigation: InvestigationId, output: string)
    | Releasing(request: Request, left: nat, answer: Answer)
    | Done(answer: Answer)

  /** Tenant and idempotency key of an intake; plain and nested intakes share one table of them. */
  type IntakeKey = (string, string)

  datatype Intake = Intake(investigation: InvestigationId, input: string, shadow: bool)

  /** The key of the nested intake of a shadow run. */
  function ShadowKey(tenant: string, id: ShadowId): IntakeKey {
    (tenant, "shadow:" + Digits(id))
  }

  function NestKey(claim: Claim): IntakeKey {
    ShadowKey(claim.request.payload.tenant, claim.id)
  }

  function RowKey(row: ShadowRow, id: ShadowId): IntakeKey {
    ShadowKey(row.payload.tenant, id)
  }

  datatype EventType = SHADOW_RUN_STARTED | SHADOW_REQUEST_REJECTED | SHADOW_RUN_COMPLETED

  datatype Event = Event(id: ShadowId, eventType: EventType)

  datatype System = System(
    rows: map<ShadowId, ShadowRow>,
    intakes: map<IntakeKey, Intake>,
    events: seq<Event>,
    locks: map<int, CallerId>,
    callers: map<CallerId, Pc>,
    nextRow: ShadowId,
    nextInvestigation: InvestigationId)

  function Start(): System {
    System(map[], map[], [], map[], map[], 0, 0)
  }

  datatype Choice = UseTool(tool: Tool) | Finish(output: string) | Raise

  datatype Step =
    | Process(caller: CallerId, request: Request)
    | Submit(caller: CallerId, tenant: string, key: string, input: string)  // a plain intake
    | Advance(caller: CallerId, choice: Choice)
    | Crash(caller: CallerId)

  // ----------------------------------------------------------------- locks

  function ClaimOf(pc: Pc): Option<Claim> {
    match pc
    case Announcing(claim) => Some(claim)
    case Claimed(claim) => Some(claim)
    case Working(nest, _) => nest
    case WantsTool(nest, _, _) => nest
    case HasTool(nest, _, _) => nest
    case Completing(claim, _, _) => Some(claim)
    case _ => None
  }

  /** The request whose two locks the caller is taking, holding or giving back. */
  function RequestOf(pc: Pc): Option<Request> {
    match pc
    case Locking(r, _) => Some(r)
    case Selecting(r) => Some(r)
    case Refusing(r, _) => Some(r)
    case Inserting(r) => Some(r)
    case Releasing(r, _, _) => Some(r)
    case _ => if ClaimOf(pc).Some? then Some(ClaimOf(pc).value.request) else None
  }

  function ShadowKeysHeld(h: Hashing, pc: Pc): seq<int> {
    if RequestOf(pc).None? then []
    else
      var keys := Keys(h, RequestOf(pc).value);
      if pc.Locking? then (if pc.taken <= |keys| then keys[..pc.taken] else keys)
      else if pc.Releasing? then (if pc.left <= |keys| then keys[..pc.left] else keys)
      else keys
  }

  function ToolKeyHeld(h: Hashing, pc: Pc): Option<int> {
    if pc.HasTool? then Some(h(ForTool(pc.investigation, pc.tool))) else None
  }

  predicate Holds(h: Hashing, pc: Pc, k: int) {
    k in ShadowKeysHeld(h, pc) || ToolKeyHeld(h, pc) == Some(k)
  }

  /** The key a caller blocks on. */
  function WaitsOn(h: Hashing, pc: Pc): Option<int> {
    match pc
    case Locking(r, n) => if n < |Keys(h, r)| then Some(Keys(h, r)[n]) else None
    case WantsTool(_, i, t) => Some(h(ForTool(i, t)))
    case _ => None
  }

  // --------------------------------------------------------- atomic steps

  predicate Matches(row: ShadowRow, r: Request) {
    (row.payload.tenant == r.payload.tenant && row.key == r.key) || CaseLock(row.payload) == CaseLock(r.payload)
  }

  function Matching(rows: map<ShadowId, ShadowRow>, r: Request): set<ShadowId> {
    set i | i in rows && Matches(rows[i], r)
  }

  predicate CanAdvance(h: Hashing, s: System, c: CallerId) {
    && c in s.callers && !s.callers[c].Done?
    && (WaitsOn(h, s.callers[c]).Some? ==> WaitsOn(h, s.callers[c]).value !in s.locks)
  }

  function At(s: System, c: CallerId, pc: Pc): System {
    s.(callers := s.callers[c := pc])
  }

  /** The caller holds exactly its two shadow keys, and no tool key. */
  predicate HoldsBoth(h: Hashing, pc: Pc, r: Request) {
    ShadowKeysHeld(h, pc) == Keys(h, r) && !pc.HasTool?
  }

  function GiveBack(h: Hashing, r: Request, answer: Answer): (pc: Pc)
    ensures HoldsBoth(h, pc, r)
  {
    var keys := Keys(h, r);
    assert keys[..|keys|] == keys;
    Releasing(r, |keys|, answer)
  }

  /** Only the rows and one caller move: no lock does, and that caller still holds both keys. */
  predicate MovesOnlyRows(h: Hashing, s: System, s': System, c: CallerId, r: Request) {
    && s'.locks == s.locks && c in s'.callers && s'.callers == s.callers[c := s'.callers[c]]
    && HoldsBoth(h, s'.callers[c], r)
  }

  lemma OneElement(found: set<ShadowId>)
    requires |found| == 1
    ensures exists id :: id in found && found == {id}
  {
    var id :| id in found;
    assert |found - {id}| == 0;
    assert found == {id};
  }

  function TheOne(found: set<ShadowId>): (id: ShadowId)
    requires |found| == 1
    ensures found == {id}
  {
    OneElement(found);
    var id :| id in found && found == {id};
    id
  }

  /** The select under both locks. */
  function Selected(h: Hashing, rows: map<ShadowId, ShadowRow>, r: Request): (pc: Pc)
    ensures HoldsBoth(h, pc, r)
  {
    var found := Matching(rows, r);
    if |found| > 1 then GiveBack(h, r, Conflict("SHADOW_IDENTITY_CONFLICT"))
    else if found == {} then Inserting(r)
    else
      assert |found| != 0;
      var id := TheOne(found);
      if rows[id].payload != r.payload then Refusing(r, id)
      else if rows[id].status != Started then GiveBack(h, r, Replay(id))
      else Claimed(Claim(r, id))
  }

  function Inserted(h: Hashing, s: System, c: CallerId, r: Request): (s': System)
    ensures MovesOnlyRows(h, s, s', c, r)
  {
    if Matching(s.rows, r) != {} then At(s, c, GiveBack(h, r, Raised))  // a UNIQUE constraint would raise
    else At(s.(rows := s.rows[s.nextRow := ShadowRow(r.key, r.payload, Started)], nextRow := s.nextRow + 1),
            c, Announcing(Claim(r, s.nextRow)))
  }

  /** `begin_intake`: a key is bound once, to the first payload that comes under it. */
  function Bound(s: System, k: IntakeKey, input: string, shadow: bool): (b: System)
    ensures k in b.intakes
  {
    if k in s.intakes then s
    else s.(intakes := s.intakes[k := Intake(s.nextInvestigation, input, shadow)], nextInvestigation := s.nextInvestigation + 1)
  }

  /** The nested intake under the key shadow:<id>: created once, then found again, or refused for another payload. */
  function Nested(h: Hashing, s: System, c: CallerId, claim: Claim): (s': System)
    ensures MovesOnlyRows(h, s, s', c, claim.request)
  {
    var k, input := NestKey(claim), claim.request.payload.input;
    var b := Bound(s, k, input, true);
    At(b, c, if b.intakes[k].input != input then GiveBack(h, claim.request, Conflict("IDEMPOTENCY_KEY_CONFLICT"))
             else Working(Some(claim), b.intakes[k].investigation))
  }

  /** A plain intake goes on to its investigation, or is refused for another payload. */
  function Submitted(s: System, c: CallerId, k: IntakeKey, input: string): System {
    var b := Bound(s, k, input, false);
    At(b, c, if b.intakes[k].input != input then Done(Conflict("IDEMPOTENCY_KEY_CONFLICT"))
             else Working(None, b.intakes[k].investigation))
  }

  function Chosen(h: Hashing, pc: Pc, choice: Choice): (next: Pc)
    requires pc.Working?
    ensures ShadowKeysHeld(h, next) == ShadowKeysHeld(h, pc) && !next.HasTool?
  {
    match choice
    case UseTool(t) => WantsTool(pc.nest, pc.investigation, t)
    case Finish(output) =>
      if pc.nest.Some? then Completing(pc.nest.value, pc.investigation, output) else Done(Raised)
    case Raise => if pc.nest.Some? then GiveBack(h, pc.nest.value.request, Raised) else Done(Raised)
  }

  function Completed(h: Hashing, s: System, c: CallerId, claim: Claim, i: InvestigationId, output: string): (s': System)
    ensures MovesOnlyRows(h, s, s', c, claim.request)
  {
    if claim.id !in s.rows || s.rows[claim.id].status != Started then
      At(s, c, GiveBack(h, claim.request, Conflict("SHADOW_COMPLETION_CONFLICT")))
    else
      At(s.(rows := s.rows[claim.id := s.rows[claim.id].(status := Finished(i, output))],
            events := s.events + [Event(claim.id, SHADOW_RUN_COMPLETED)]),
         c, GiveBack(h, claim.request, Fresh(claim.id)))
  }

  function Advanced(h: Hashing, s: System, c: CallerId, choice: Choice): System
    requires CanAdvance(h, s, c)
  {
    match s.callers[c]
    case Locking(r, n) =>
      if n >= |Keys(h, r)| then At(s, c, Selecting(r))
      else At(s.(locks := s.locks[Keys(h, r)[n] := c]), c, if n + 1 == |Keys(h, r)| then Selecting(r) else Locking(r, n + 1))
    case Selecting(r) => At(s, c, Selected(h, s.rows, r))
    case Refusing(r, id) =>
      At(s.(events := s.events + [Event(id, SHADOW_REQUEST_REJECTED)]), c,
         GiveBack(h, r, Conflict("SHADOW_IDEMPOTENCY_CONFLICT")))
    case Inserting(r) => Inserted(h, s, c, r)
    case Announcing(claim) => At(s.(events := s.events + [Event(claim.id, SHADOW_RUN_STARTED)]), c, Claimed(claim))
    case Claimed(claim) => Nested(h, s, c, claim)
    case Working(nest, i) => At(s, c, Chosen(h, s.callers[c], choice))
    case WantsTool(nest, i, t) => At(s.(locks := s.locks[h(ForTool(i, t)) := c]), c, HasTool(nest, i, t))
    case HasTool(nest, i, t) => At(s.(locks := s.locks - {h(ForTool(i, t))}), c, Working(nest, i))
    case Completing(claim, i, output) => Completed(h, s, c, claim, i, output)
    case Releasing(r, left, answer) =>
      if left == 0 || left > |Keys(h, r)| then At(s, c, Done(answer))
      else At(s.(locks := s.locks - {Keys(h, r)[left - 1]}), c, Releasing(r, left - 1, answer))
  }

  function Dropped(s: System, c: CallerId): System {
    s.(callers := s.callers - {c}, locks := map k | k in s.locks && s.locks[k] != c :: s.locks[k])
  }

  function Apply(h: Hashing, s: System, step: Step): System {
    match step
    case Process(c, r) => if c in s.callers then s else At(s, c, Locking(r, 0))
    case Submit(c, tenant, key, input) =>
      if c in s.callers || !(1 <= |key| <= 200) then s else Submitted(s, c, (tenant, key), input)
    case Advance(c, choice) => if CanAdvance(h, s, c) then Advanced(h, s, c, choice) else s
    case Crash(c) => Dropped(s, c)
  }

  function After(h: Hashing, run: seq<Step>): System {
    if run == [] then Start() else Apply(h, After(h, run[..|run| - 1]), run[|run| - 1])
  }

  // ------------------------------------------------------------- invariant

  /** A key is locked exactly by the caller that holds it. */
  ghost predicate LockInv(h: Hashing, s: System) {
    && (forall c, k | c in s.callers && Holds(h, s.callers[c], k) :: k in s.locks && s.locks[k] == c)
    && (forall k | k in s.locks :: s.locks[k] in s.callers && Holds(h, s.callers[s.locks[k]], k))
  }

  /** Both UNIQUE constraints, and ids that were never used. */
  ghost predicate UniqueRows(rows: map<ShadowId, ShadowRow>, next: ShadowId) {
    && (forall i, j | i in rows && j in rows && Matches(rows[i], Request(rows[j].key, rows[j].payload)) :: i == j)
    && (forall i | i in rows :: i < next)
  }

  /** Each key has an investigation of its own, and a finished row names that of its nested key. */
  ghost predicate NestedRows(rows: map<ShadowId, ShadowRow>, intakes: map<IntakeKey, Intake>, next: InvestigationId) {
    && (forall k | k in intakes :: intakes[k].investigation < next)
    && (forall k, l | k in intakes && l in intakes && intakes[k].investigation == intakes[l].investigation :: k == l)
    && (forall i | i in rows && rows[i].status.Finished? ::
          var k := RowKey(rows[i], i);
          && k in intakes && rows[i].status.investigation == intakes[k].investigation
          && intakes[k].input == rows[i].payload.input)
  }

  ghost predicate RowsInv(s: System) {
    UniqueRows(s.rows, s.nextRow) && NestedRows(s.rows, s.intakes, s.nextInvestigation)
  }

  ghost predicate ClaimInv(s: System, claim: Claim) {
    claim.id in s.rows && s.rows[claim.id].payload == claim.request.payload && s.rows[claim.id].status == Started
  }

  ghost predicate AnswerInv(s: System, answer: Answer) {
    match answer
    case Fresh(id) => id in s.rows && s.rows[id].status.Finished?
    case Replay(id) => id in s.rows && s.rows[id].status.Finished?
    case Conflict(code) => code in {"SHADOW_IDENTITY_CONFLICT", "SHADOW_IDEMPOTENCY_CONFLICT", "IDEMPOTENCY_KEY_CONFLICT"}
    case Raised => true
  }

  /** What a caller may rely on at each point. */
  ghost predicate PcInv(h: Hashing, s: System, pc: Pc) {
    && (ClaimOf(pc).Some? ==> ClaimInv(s, ClaimOf(pc).value))
    && match pc
       case Locking(r, n) => n < |Keys(h, r)|
       case Inserting(r) => Matching(s.rows, r) == {}
       case Working(nest, i) => NestInv(s, nest, i)
       case WantsTool(nest, i, _) => NestInv(s, nest, i)
       case HasTool(nest, i, _) => NestInv(s, nest, i)
       case Completing(claim, i, _) => NestInv(s, Some(claim), i)
       case Releasing(r, left, answer) => left <= |Keys(h, r)| && AnswerInv(s, answer)
       case Done(answer) => AnswerInv(s, answer)
       case _ => true
  }

  ghost predicate NestInv(s: System, nest: Option<Claim>, i: InvestigationId) {
    nest.Some? ==>
      var k := NestKey(nest.value);
      k in s.intakes && s.intakes[k].investigation == i && s.intakes[k].input == nest.value.request.payload.input
  }

  ghost predicate Inv(h: Hashing, s: System) {
    && LockInv(h, s)
    && RowsInv(s)
    && (forall c | c in s.callers :: PcInv(h, s, s.callers[c]))
  }

  /** What every step does to the rows: immutable control fields, one move to a terminal status, stable intakes. */
  ghost predicate Rely(a: System, b: System) {
    && (forall i | i in a.rows ::
          && i in b.rows && b.rows[i].key == a.rows[i].key && b.rows[i].payload == a.rows[i].payload
          && (a.rows[i].status.Finished? ==> b.rows[i] == a.rows[i]))
    && (forall k | k in a.intakes :: k in b.intakes && b.intakes[k] == a.intakes[k])
    && a.events <= b.events
  }
}
