/** The evidence contracts that gate reasoning, and the citation contract that gates the draft. */
module Evidence {
  import opened Wrappers

  datatype Tool = T1_INVENTORY | T2_SALES_DEMAND | T3_SUPPLIER | REASONING_TOOL

  const EVIDENCE_TOOLS: set<Tool> := {T1_INVENTORY, T2_SALES_DEMAND, T3_SUPPLIER}

  /** `expected_evidence_id`: a digest of the source reference and the content hash. */
  datatype EvidenceId = EvidenceId(sourceRef: string, contentHash: Hash)

  datatype Evidence = Evidence(
    tool: Tool,
    facts: seq<string>,
    sourceRef: string,
    contentHash: Hash,
    evidenceId: EvidenceId,
    aware: bool,  // both provenance timestamps carry a time zone
    freshness: Time)

  datatype ReasoningResult = ReasoningResult(
    statement: string,
    rootCitations: seq<EvidenceId>,
    rationale: string,
    draftCitations: seq<EvidenceId>)

  const EVIDENCE_INCOMPLETE := "EVIDENCE_INCOMPLETE"
  const EVIDENCE_DUPLICATE := "EVIDENCE_DUPLICATE"
  const PROVENANCE_INVALID := "PROVENANCE_INVALID"
  const EVIDENCE_STALE := "EVIDENCE_STALE"

  function FreshnessLimit(t: Tool): Time
    requires t in EVIDENCE_TOOLS
  {
    match t
    case T1_INVENTORY => 24.0 * 3600.0
    case T2_SALES_DEMAND => 48.0 * 3600.0
    case T3_SUPPLIER => 72.0 * 3600.0
  }

  function ToolsOf(bundle: seq<Evidence>): set<Tool> {
    set i | 0 <= i < |bundle| :: bundle[i].tool
  }

  /** The checks of one item, in order. */
  function ItemFailure(e: Evidence, asOf: Time): Option<string>
    requires e.tool in EVIDENCE_TOOLS
  {
    if !e.aware then Some(PROVENANCE_INVALID)
    else if Sha256(e.facts) != e.contentHash then Some(PROVENANCE_INVALID)
    else if EvidenceId(e.sourceRef, e.contentHash) != e.evidenceId then Some(PROVENANCE_INVALID)
    else
      var age := asOf - e.freshness;
      if age < 0.0 || age > FreshnessLimit(e.tool) then Some(EVIDENCE_STALE) else None
  }

  function FirstFailure(bundle: seq<Evidence>, asOf: Time): Option<string>
    requires forall e | e in bundle :: e.tool in EVIDENCE_TOOLS
  {
    if bundle == [] then None
    else if ItemFailure(bundle[0], asOf).Some? then ItemFailure(bundle[0], asOf)
    else FirstFailure(bundle[1..], asOf)
  }

  /** `validate_bundle`: None when it accepts, else the code it raises. */
  function ValidateBundle(bundle: seq<Evidence>, asOf: Time): Option<string> {
    if |bundle| != 3 || ToolsOf(bundle) != EVIDENCE_TOOLS then Some(EVIDENCE_INCOMPLETE)
    else if |ToolsOf(bundle)| != |bundle| then Some(EVIDENCE_DUPLICATE)
    else
      assert forall e | e in bundle :: e.tool in ToolsOf(bundle);
      FirstFailure(bundle, asOf)
  }

  /** An item that is what it says it is: aware timestamps, and an id that is the digest of its own facts. */
  ghost predicate Genuine(e: Evidence) {
    e.aware && e.contentHash == Sha256(e.facts) && e.evidenceId == EvidenceId(e.sourceRef, Sha256(e.facts))
  }

  /** Inventory of at most a day, sales of at most two, supplier data of at most three, and none from the future. */
  ghost predicate Recent(e: Evidence, asOf: Time) {
    && e.freshness <= asOf
    && (e.tool == T1_INVENTORY ==> asOf - e.freshness <= 86400.0)
    && (e.tool == T2_SALES_DEMAND ==> asOf - e.freshness <= 172800.0)
    && (e.tool == T3_SUPPLIER ==> asOf - e.freshness <= 259200.0)
  }

  ghost predicate Sound(e: Evidence, asOf: Time) {
    e.tool != REASONING_TOOL && Genuine(e) && Recent(e, asOf)
  }

  /** One item of each of the three tools and nothing else. */
  ghost predicate OneOfEach(bundle: seq<Evidence>) {
    && |bundle| == 3
    && (exists e :: e in bundle && e.tool == T1_INVENTORY)
    && (exists e :: e in bundle && e.tool == T2_SALES_DEMAND)
    && (exists e :: e in bundle && e.tool == T3_SUPPLIER)
  }

  ghost predicate Accepted(bundle: seq<Evidence>, asOf: Time) {
    OneOfEach(bundle) && forall e | e in bundle :: Sound(e, asOf)
  }

  /** Item `k` is the first that is not sound. */
  ghost predicate FirstUnsound(bundle: seq<Evidence>, asOf: Time, k: nat) {
    k < |bundle| && !Sound(bundle[k], asOf) && forall j | 0 <= j < k :: Sound(bundle[j], asOf)
  }

  /** Why a bundle is refused: it is incomplete, or by its first unsound item, whose identity comes before its age. */
  ghost predicate RefusedWith(bundle: seq<Evidence>, asOf: Time, code: string) {
    if !OneOfEach(bundle) then code == "EVIDENCE_INCOMPLETE"
    else exists k: nat :: FirstUnsound(bundle, asOf, k)
                          && code == if Genuine(bundle[k]) then "EVIDENCE_STALE" else "PROVENANCE_INVALID"
  }

  lemma ItemFailureIs(e: Evidence, asOf: Time)
    requires e.tool in EVIDENCE_TOOLS
    ensures ItemFailure(e, asOf)
            == if Sound(e, asOf) then None
               else if Genuine(e) then Some("EVIDENCE_STALE") else Some("PROVENANCE_INVALID")
  {
  }

  lemma {:induction false} FirstFailureIs(bundle: seq<Evidence>, asOf: Time)
    requires forall e | e in bundle :: e.tool in EVIDENCE_TOOLS
    ensures match FirstFailure(bundle, asOf)
            case None => forall e | e in bundle :: Sound(e, asOf)
            case Some(code) =>
              exists k: nat :: FirstUnsound(bundle, asOf, k)
                               && code == if Genuine(bundle[k]) then "EVIDENCE_STALE" else "PROVENANCE_INVALID"
  {
    hide Genuine, Recent, ItemFailure;
    if bundle != [] {
      ItemFailureIs(bundle[0], asOf);
      hide Sound;
      if Sound(bundle[0], asOf) {
        FirstFailureIs(bundle[1..], asOf);
        if FirstFailure(bundle, asOf).Some? {
          var k: nat :| FirstUnsound(bundle[1..], asOf, k)
                        && FirstFailure(bundle, asOf).value
                           == if Genuine(bundle[1..][k]) then "EVIDENCE_STALE" else "PROVENANCE_INVALID";
          assert bundle[1..][k] == bundle[k + 1];
          assert forall j | 0 < j < k + 1 :: bundle[j] == bundle[1..][j - 1];
          assert FirstUnsound(bundle, asOf, k + 1);
        } else {
          assert forall e :: e in bundle <==> e == bundle[0] || e in bundle[1..];
        }
      } else {
        assert FirstUnsound(bundle, asOf, 0);
      }
    }
  }

  lemma ThreeTools()
    ensures |EVIDENCE_TOOLS| == 3
  {
    assert EVIDENCE_TOOLS == {T1_INVENTORY} + {T2_SALES_DEMAND} + {T3_SUPPLIER};
  }

  lemma ToolsOfIs(bundle: seq<Evidence>, t: Tool)
    ensures t in ToolsOf(bundle) <==> exists i :: 0 <= i < |bundle| && bundle[i].tool == t
  {
  }

  /** Three items with one of each tool among them have no other tool among them. */
  lemma OneOfEachCovers(bundle: seq<Evidence>)
    requires OneOfEach(bundle)
    ensures ToolsOf(bundle) == EVIDENCE_TOOLS && forall e | e in bundle :: e.tool in EVIDENCE_TOOLS
  {
    var i :| 0 <= i < |bundle| && bundle[i].tool == T1_INVENTORY;
    var j :| 0 <= j < |bundle| && bundle[j].tool == T2_SALES_DEMAND;
    var k :| 0 <= k < |bundle| && bundle[k].tool == T3_SUPPLIER;
    forall m | 0 <= m < |bundle|
      ensures bundle[m].tool in EVIDENCE_TOOLS
    {
      assert m == i || m == j || m == k;
    }
    ToolsOfIs(bundle, T1_INVENTORY);
    ToolsOfIs(bundle, T2_SALES_DEMAND);
    ToolsOfIs(bundle, T3_SUPPLIER);
  }

  lemma CoversOneOfEach(bundle: seq<Evidence>)
    requires |bundle| == 3 && ToolsOf(bundle) == EVIDENCE_TOOLS
    ensures OneOfEach(bundle)
  {
    ToolsOfIs(bundle, T1_INVENTORY);
    ToolsOfIs(bundle, T2_SALES_DEMAND);
    ToolsOfIs(bundle, T3_SUPPLIER);
    hide ToolsOf;
  }

  lemma OneOfEachIs(bundle: seq<Evidence>)
    ensures OneOfEach(bundle) <==> |bundle| == 3 && ToolsOf(bundle) == EVIDENCE_TOOLS
    ensures OneOfEach(bundle) ==> |ToolsOf(bundle)| == 3 && forall e | e in bundle :: e.tool in EVIDENCE_TOOLS
  {
    hide ToolsOf;
    ThreeTools();
    if OneOfEach(bundle) {
      OneOfEachCovers(bundle);
    }
    if |bundle| == 3 && ToolsOf(bundle) == EVIDENCE_TOOLS {
      CoversOneOfEach(bundle);
    }
    hide OneOfEach;
  }

  /**
   A bundle is accepted exactly when it is one sound item from each of the three tools. Since three items that
   cover three tools are distinct, the duplicate check can never be the one that fires.
   */
  lemma BundleAcceptedIff(bundle: seq<Evidence>, asOf: Time)
    ensures ValidateBundle(bundle, asOf) == None <==> Accepted(bundle, asOf)
    ensures ValidateBundle(bundle, asOf) != Some("EVIDENCE_DUPLICATE")
  {
    hide Genuine, Recent;
    OneOfEachIs(bundle);
    if OneOfEach(bundle) {
      FirstFailureIs(bundle, asOf);
    }
    hide OneOfEach, Sound;
  }

  /** And it is refused exactly with the code of the first check that fails. */
  lemma BundleRefusedIff(bundle: seq<Evidence>, asOf: Time, code: string)
    ensures ValidateBundle(bundle, asOf) == Some(code) <==> RefusedWith(bundle, asOf, code)
  {
    hide Genuine, Recent, Sound;
    OneOfEachIs(bundle);
    if OneOfEach(bundle) {
      FirstFailureIs(bundle, asOf);
      FirstUnsoundIsUnique(bundle, asOf);
    }
    hide OneOfEach;
  }

  lemma FirstUnsoundIsUnique(bundle: seq<Evidence>, asOf: Time)
    ensures forall j: nat, k: nat | FirstUnsound(bundle, asOf, j) && FirstUnsound(bundle, asOf, k) :: j == k
  {
    hide Sound;
  }

  function IdsOf(bundle: seq<Evidence>): set<EvidenceId> {
    set i | 0 <= i < |bundle| :: bundle[i].evidenceId
  }

  /** `validate_citations`. */
  predicate ValidCitations(r: ReasoningResult, ids: set<EvidenceId>) {
    forall c | c in r.rootCitations + r.draftCitations :: c in ids
  }
}
