/** A6 and A7: the witness receipt and the formal ledger entry
    (legacy/one-app/server/controlPlane.ts). */
module Receipts {
  import opened Hashing
  import opened Json
  import opened Wrappers
  import opened Intents
  import opened Verification
  import opened Gate
  import opened Reasons

  datatype ConnectorResult = ConnectorResult(success: bool, output: Value, metadata: Option<Value>, executedAt: int)

  /** Everything a receipt vouches for. */
  datatype Custody = Custody(
    envelope: Envelope,
    verification: VerificationResult,
    governance: Governance,
    approval: Option<Approval>,
    token: Token,
    result: ConnectorResult
  )

  datatype Receipt = Receipt(
    receiptId: string,
    intentHash: string,
    verificationHash: string,
    decisionHash: string,
    approvalHash: Option<string>,
    executionHash: string,
    receiptHash: string,
    verified: bool,
    success: bool,
    custody: Custody,
    timestamp: int
  )

  const VERIFICATION_FIELDS := [
    "verification_id", "intent_hash", "schema_valid", "auth_valid", "signature_valid", "ttl_valid",
    "nonce_valid", "replay_check", "verified", "failure_reasons", "timestamp" ]

  function VerificationValues(v: VerificationResult): seq<Value> {
    [ String(v.verificationId), String(v.intentHash), Bool(v.schemaValid), Bool(v.authValid),
      Bool(v.signatureValid), Bool(v.ttlValid), Bool(v.nonceValid), Bool(v.replayCheck), Bool(v.verified),
      FailureTexts(v.failureReasons), Integer(v.timestamp) ]
  }

  function VerificationJson(v: VerificationResult): Value {
    Record(VERIFICATION_FIELDS, VerificationValues(v))
  }

  const GOVERNANCE_FIELDS := [
    "decision_id", "intent_hash", "verification_id", "policy_version", "risk_score", "risk_level", "decision",
    "required_approvals", "reasons", "blocking_conditions", "timestamp" ]

  const BLAST := "High blast radius — review carefully"

  function GovernanceValues(g: Governance): seq<Value> {
    [ String(g.decisionId), String(g.intentHash), String(g.verificationId), String(g.policyVersion),
      Integer(g.riskScore), String(g.riskLevel), String(DecisionText(g.decision)),
      Integer(g.requiredApprovals), Array([String(ReasonText(g.reason))]),
      Array(if g.reviewBlastRadius then [String(BLAST)] else []), Integer(g.timestamp) ]
  }

  function GovernanceJson(g: Governance): Value {
    Record(GOVERNANCE_FIELDS, GovernanceValues(g))
  }

  const APPROVAL_FIELDS := [
    "approval_id", "decision_id", "intent_hash", "approver_id", "approval_status", "auth_method",
    "approval_artifact", "timestamp", "notes" ]

  function ApprovalValues(a: Approval): seq<Value> {
    [ String(a.approvalId), String(a.decisionId), String(a.intentHash), String(a.approverId),
      String(if a.approvalStatus == Approved then "APPROVED" else "REJECTED"), String(a.authMethod),
      String(a.approvalArtifact), Integer(a.timestamp), OrNull(a.notes) ]
  }

  /** What the human said, as the approval's hash covers it. */
  lemma StatusTold(a: Approval)
    ensures ApprovalValues(a)[4] == String("APPROVED") <==> a.approvalStatus == Approved
    ensures ApprovalValues(a)[4] == String("REJECTED") <==> a.approvalStatus == Rejected
  {
  }

  function ApprovalJson(a: Approval): Value {
    Record(APPROVAL_FIELDS, ApprovalValues(a))
  }

  const RESULT_FIELDS := ["success", "output", "executedAt"]
  const FULL_RESULT_FIELDS := ["success", "output", "metadata", "executedAt"]

  /** An absent metadata is an absent key. */
  function ResultJson(r: ConnectorResult): Value {
    if r.metadata.Some?
    then Record(FULL_RESULT_FIELDS, [Bool(r.success), r.output, r.metadata.value, Integer(r.executedAt)])
    else Record(RESULT_FIELDS, [Bool(r.success), r.output, Integer(r.executedAt)])
  }

  function JsonHash(h: Hash, v: Value): string {
    h(Stringify(v))
  }

  lemma JsonHashBinds(h: Hash, v: Value, w: Value)
    requires CollisionFree(h) && JsonHash(h, v) == JsonHash(h, w)
    ensures Denote(v) == Denote(w)
  {
    assert Stringify(v) + "" == Stringify(w) + "";
    StringifyUnique(v, w, "", "");
  }

  lemma RecordHashBinds(h: Hash, names: seq<string>, vs: seq<Value>, ws: seq<Value>)
    requires CollisionFree(h) && |names| == |vs| == |ws| && Distinct(names)
    requires JsonHash(h, Record(names, vs)) == JsonHash(h, Record(names, ws))
    ensures AllAgree(vs, ws)
  {
    RecordBinds(names, vs, ws);
  }

  const EXECUTION_FIELDS := ["token_id", "result"]

  function ExecutionValues(c: Custody): seq<Value> {
    [String(c.token.tokenId), ResultJson(c.result)]
  }

  function ExecutionHash(h: Hash, c: Custody): string {
    JsonHash(h, Record(EXECUTION_FIELDS, ExecutionValues(c)))
  }

  const RECEIPT_FIELDS := [
    "receipt_id", "intent_hash", "verification_hash", "decision_hash", "approval_hash", "execution_hash" ]

  function ApprovalHash(h: Hash, a: Option<Approval>): Option<string> {
    if a.Some? then Some(JsonHash(h, ApprovalJson(a.value))) else None
  }

  function ReceiptValues(h: Hash, id: string, c: Custody): seq<Value> {
    [ String(id), String(c.verification.intentHash), String(JsonHash(h, VerificationJson(c.verification))),
      String(JsonHash(h, GovernanceJson(c.governance))), OrNull(ApprovalHash(h, c.approval)),
      String(ExecutionHash(h, c)) ]
  }

  /** generateWitnessReceipt. */
  function Witness(h: Hash, id: string, c: Custody, now: int): Receipt {
    Receipt(
      id, c.verification.intentHash, JsonHash(h, VerificationJson(c.verification)),
      JsonHash(h, GovernanceJson(c.governance)), ApprovalHash(h, c.approval), ExecutionHash(h, c),
      JsonHash(h, Record(RECEIPT_FIELDS, ReceiptValues(h, id, c))),
      c.verification.verified, c.result.success, c, now)
  }

  // ---------------------------------------------------------------------
  // What each hashed record tells
  // ---------------------------------------------------------------------

  lemma VerificationHashBinds(h: Hash, v: VerificationResult, w: VerificationResult)
    requires CollisionFree(h) && JsonHash(h, VerificationJson(v)) == JsonHash(h, VerificationJson(w))
    ensures v == w
  {
    VerificationFieldsDistinct();
    RecordHashBinds(h, VERIFICATION_FIELDS, VerificationValues(v), VerificationValues(w));
    SameVerificationTexts(v, w);
    SameVerificationFlags(v, w);
    SameVerificationRest(v, w);
  }

  lemma VerificationFieldsDistinct()
    ensures Distinct(VERIFICATION_FIELDS)
  {
  }

  lemma SameVerificationTexts(v: VerificationResult, w: VerificationResult)
    requires AllAgree(VerificationValues(v), VerificationValues(w))
    ensures v.verificationId == w.verificationId && v.intentHash == w.intentHash
  {
    var vs, ws := VerificationValues(v), VerificationValues(w);
    assert Agree(vs, ws, 0) && Agree(vs, ws, 1);
  }

  lemma SameVerificationFlags(v: VerificationResult, w: VerificationResult)
    requires AllAgree(VerificationValues(v), VerificationValues(w))
    ensures v.schemaValid == w.schemaValid && v.authValid == w.authValid && v.signatureValid == w.signatureValid
    ensures v.ttlValid == w.ttlValid && v.nonceValid == w.nonceValid && v.replayCheck == w.replayCheck
    ensures v.verified == w.verified
  {
    var vs, ws := VerificationValues(v), VerificationValues(w);
    assert Agree(vs, ws, 2) && Agree(vs, ws, 3) && Agree(vs, ws, 4) && Agree(vs, ws, 5);
    assert Agree(vs, ws, 6) && Agree(vs, ws, 7) && Agree(vs, ws, 8);
  }

  lemma SameVerificationRest(v: VerificationResult, w: VerificationResult)
    requires AllAgree(VerificationValues(v), VerificationValues(w))
    ensures v.failureReasons == w.failureReasons && v.timestamp == w.timestamp
  {
    var vs, ws := VerificationValues(v), VerificationValues(w);
    assert Agree(vs, ws, 9) && Agree(vs, ws, 10);
    FailureTextsBind(v.failureReasons, w.failureReasons);
    IntegersAgree(v.timestamp, w.timestamp);
  }

  lemma GovernanceHashBinds(h: Hash, g: Governance, k: Governance)
    requires CollisionFree(h) && JsonHash(h, GovernanceJson(g)) == JsonHash(h, GovernanceJson(k))
    ensures g == k
  {
    GovernanceFieldsDistinct();
    RecordHashBinds(h, GOVERNANCE_FIELDS, GovernanceValues(g), GovernanceValues(k));
    SameGovernanceTexts(g, k);
    SameGovernanceNumbers(g, k);
    SameGovernanceReasons(g, k);
  }

  lemma GovernanceFieldsDistinct()
    ensures Distinct(GOVERNANCE_FIELDS)
  {
  }

  lemma SameGovernanceTexts(g: Governance, k: Governance)
    requires AllAgree(GovernanceValues(g), GovernanceValues(k))
    ensures g.decisionId == k.decisionId && g.intentHash == k.intentHash && g.verificationId == k.verificationId
    ensures g.policyVersion == k.policyVersion && g.riskLevel == k.riskLevel
  {
    var vs, ws := GovernanceValues(g), GovernanceValues(k);
    assert Agree(vs, ws, 0) && Agree(vs, ws, 1) && Agree(vs, ws, 2) && Agree(vs, ws, 3) && Agree(vs, ws, 5);
  }

  lemma SameGovernanceNumbers(g: Governance, k: Governance)
    requires AllAgree(GovernanceValues(g), GovernanceValues(k))
    ensures g.riskScore == k.riskScore && g.requiredApprovals == k.requiredApprovals && g.timestamp == k.timestamp
  {
    var vs, ws := GovernanceValues(g), GovernanceValues(k);
    assert Agree(vs, ws, 4) && Agree(vs, ws, 7) && Agree(vs, ws, 10);
    IntegersAgree(g.riskScore, k.riskScore);
    IntegersAgree(g.requiredApprovals, k.requiredApprovals);
    IntegersAgree(g.timestamp, k.timestamp);
  }

  lemma SameGovernanceReasons(g: Governance, k: Governance)
    requires AllAgree(GovernanceValues(g), GovernanceValues(k))
    ensures g.decision == k.decision && g.reason == k.reason && g.reviewBlastRadius == k.reviewBlastRadius
  {
    var vs, ws := GovernanceValues(g), GovernanceValues(k);
    assert Agree(vs, ws, 6) && Agree(vs, ws, 8) && Agree(vs, ws, 9);
    TextsAgree(DecisionText(g.decision), DecisionText(k.decision));
    DecisionTextBinds(g.decision, k.decision);
    ReasonListsAgree(g.reason, k.reason);
    ArraysAgree(vs[9].items, ws[9].items);
  }

  lemma ReasonListsAgree(r: RiskReason, s: RiskReason)
    requires Denote(Array([String(ReasonText(r))])) == Denote(Array([String(ReasonText(s))]))
    ensures r == s
  {
    var xs, ys := [String(ReasonText(r))], [String(ReasonText(s))];
    ArraysAgree(xs, ys);
    assert Denote(xs[0]) == Denote(ys[0]);
    TextsAgree(ReasonText(r), ReasonText(s));
    ReasonTextBinds(r, s);
  }

  lemma ApprovalHashBinds(h: Hash, a: Approval, b: Approval)
    requires CollisionFree(h) && JsonHash(h, ApprovalJson(a)) == JsonHash(h, ApprovalJson(b))
    ensures a == b
  {
    ApprovalFieldsDistinct();
    RecordHashBinds(h, APPROVAL_FIELDS, ApprovalValues(a), ApprovalValues(b));
    SameApprovalTexts(a, b);
    SameApprovalRest(a, b);
  }

  lemma ApprovalFieldsDistinct()
    ensures Distinct(APPROVAL_FIELDS)
  {
  }

  lemma SameApprovalTexts(a: Approval, b: Approval)
    requires AllAgree(ApprovalValues(a), ApprovalValues(b))
    ensures a.approvalId == b.approvalId && a.decisionId == b.decisionId && a.intentHash == b.intentHash
    ensures a.approverId == b.approverId && a.authMethod == b.authMethod && a.approvalArtifact == b.approvalArtifact
  {
    var vs, ws := ApprovalValues(a), ApprovalValues(b);
    assert Agree(vs, ws, 0) && Agree(vs, ws, 1) && Agree(vs, ws, 2) && Agree(vs, ws, 3) && Agree(vs, ws, 5);
    assert Agree(vs, ws, 6);
  }

  lemma SameApprovalRest(a: Approval, b: Approval)
    requires AllAgree(ApprovalValues(a), ApprovalValues(b))
    ensures a.approvalStatus == b.approvalStatus && a.timestamp == b.timestamp && a.notes == b.notes
  {
    var vs, ws := ApprovalValues(a), ApprovalValues(b);
    assert Agree(vs, ws, 4) && Agree(vs, ws, 7) && Agree(vs, ws, 8);
    assert vs[4].s[0] == ws[4].s[0];
    IntegersAgree(a.timestamp, b.timestamp);
    OptionsAgree(a.notes, b.notes);
  }

  /** The same result, up to key order in what the connector returned. */
  ghost predicate SameResult(r: ConnectorResult, q: ConnectorResult) {
    r.success == q.success && r.executedAt == q.executedAt && Denote(r.output) == Denote(q.output) &&
    (r.metadata.Some? <==> q.metadata.Some?) &&
    (r.metadata.Some? && q.metadata.Some? ==> Denote(r.metadata.value) == Denote(q.metadata.value))
  }

  lemma ResultFieldsDistinct()
    ensures Distinct(RESULT_FIELDS) && Distinct(FULL_RESULT_FIELDS)
    ensures "metadata" in FULL_RESULT_FIELDS && "metadata" !in RESULT_FIELDS
  {
    assert FULL_RESULT_FIELDS[2] == "metadata";
    assert forall i | 0 <= i < 3 :: RESULT_FIELDS[i] == ["success", "output", "executedAt"][i];
    assert |"metadata"| == 8 && |"success"| == 7 && |"output"| == 6 && |"executedAt"| == 10;
  }

  lemma MetadataIsKey(r: ConnectorResult)
    ensures "metadata" in Denote(ResultJson(r)).fields <==> r.metadata.Some?
  {
    ResultFieldsDistinct();
    if r.metadata.Some? {
      KeysOfRecord(FULL_RESULT_FIELDS, [Bool(r.success), r.output, r.metadata.value, Integer(r.executedAt)]);
    } else {
      KeysOfRecord(RESULT_FIELDS, [Bool(r.success), r.output, Integer(r.executedAt)]);
    }
  }

  lemma ResultBinds(r: ConnectorResult, q: ConnectorResult)
    requires Denote(ResultJson(r)) == Denote(ResultJson(q))
    ensures SameResult(r, q)
  {
    MetadataIsKey(r);
    MetadataIsKey(q);
    if r.metadata.Some? {
      FullResultBinds(r, q);
    } else {
      PlainResultBinds(r, q);
    }
  }

  lemma FullResultBinds(r: ConnectorResult, q: ConnectorResult)
    requires r.metadata.Some? && q.metadata.Some? && Denote(ResultJson(r)) == Denote(ResultJson(q))
    ensures SameResult(r, q)
  {
    var vs := [Bool(r.success), r.output, r.metadata.value, Integer(r.executedAt)];
    var ws := [Bool(q.success), q.output, q.metadata.value, Integer(q.executedAt)];
    ResultFieldsDistinct();
    RecordMeaningBinds(FULL_RESULT_FIELDS, vs, ws);
    assert Agree(vs, ws, 0) && Agree(vs, ws, 1) && Agree(vs, ws, 2) && Agree(vs, ws, 3);
    BoolsAgree(r.success, q.success);
    IntegersAgree(r.executedAt, q.executedAt);
  }

  lemma PlainResultBinds(r: ConnectorResult, q: ConnectorResult)
    requires r.metadata.None? && q.metadata.None? && Denote(ResultJson(r)) == Denote(ResultJson(q))
    ensures SameResult(r, q)
  {
    var vs := [Bool(r.success), r.output, Integer(r.executedAt)];
    var ws := [Bool(q.success), q.output, Integer(q.executedAt)];
    ResultFieldsDistinct();
    RecordMeaningBinds(RESULT_FIELDS, vs, ws);
    assert Agree(vs, ws, 0) && Agree(vs, ws, 1) && Agree(vs, ws, 2);
    BoolsAgree(r.success, q.success);
    IntegersAgree(r.executedAt, q.executedAt);
  }

  /** What two receipts with one hash have in common: the whole verification, decision and
      approval, field by field, the token's id, and the result. */
  ghost predicate SameCustody(c: Custody, d: Custody) {
    c.verification == d.verification && c.governance == d.governance && c.approval == d.approval &&
    c.token.tokenId == d.token.tokenId && SameResult(c.result, d.result)
  }

  lemma ExecutionHashBinds(h: Hash, c: Custody, d: Custody)
    requires CollisionFree(h) && ExecutionHash(h, c) == ExecutionHash(h, d)
    ensures c.token.tokenId == d.token.tokenId && Denote(ResultJson(c.result)) == Denote(ResultJson(d.result))
  {
    var vs, ws := ExecutionValues(c), ExecutionValues(d);
    ExecutionFieldsDistinct();
    RecordHashBinds(h, EXECUTION_FIELDS, vs, ws);
    assert Agree(vs, ws, 0) && Agree(vs, ws, 1);
    TextsAgree(c.token.tokenId, d.token.tokenId);
  }

  lemma ExecutionFieldsDistinct()
    ensures Distinct(EXECUTION_FIELDS)
  {
  }

  lemma ReceiptValuesAgree(h: Hash, id: string, c: Custody, id': string, d: Custody)
    requires CollisionFree(h)
    requires JsonHash(h, Record(RECEIPT_FIELDS, ReceiptValues(h, id, c)))
      == JsonHash(h, Record(RECEIPT_FIELDS, ReceiptValues(h, id', d)))
    ensures AllAgree(ReceiptValues(h, id, c), ReceiptValues(h, id', d))
  {
    ReceiptFieldsDistinct();
    RecordHashBinds(h, RECEIPT_FIELDS, ReceiptValues(h, id, c), ReceiptValues(h, id', d));
  }

  lemma ReceiptFieldsDistinct()
    ensures Distinct(RECEIPT_FIELDS)
  {
  }

  lemma ReceiptParts(vs: seq<Value>, ws: seq<Value>, a: Option<string>, b: Option<string>)
    requires |vs| == 6 && AllAgree(vs, ws)
    requires forall i | 0 <= i < 6 && i != 4 :: vs[i].String? && ws[i].String?
    requires vs[4] == OrNull(a) && ws[4] == OrNull(b)
    ensures forall i | 0 <= i < 6 && i != 4 :: vs[i] == ws[i]
    ensures a == b
  {
    forall i | 0 <= i < 6 && i != 4 ensures vs[i] == ws[i] {
      assert Agree(vs, ws, i);
    }
    assert Agree(vs, ws, 4);
  }

  lemma PartHashesAgree(h: Hash, id: string, c: Custody, id': string, d: Custody)
    requires AllAgree(ReceiptValues(h, id, c), ReceiptValues(h, id', d))
    ensures id == id' && JsonHash(h, VerificationJson(c.verification)) == JsonHash(h, VerificationJson(d.verification))
    ensures JsonHash(h, GovernanceJson(c.governance)) == JsonHash(h, GovernanceJson(d.governance))
    ensures ApprovalHash(h, c.approval) == ApprovalHash(h, d.approval) && ExecutionHash(h, c) == ExecutionHash(h, d)
  {
    var vs, ws := ReceiptValues(h, id, c), ReceiptValues(h, id', d);
    ReceiptParts(vs, ws, ApprovalHash(h, c.approval), ApprovalHash(h, d.approval));
    assert vs[0] == ws[0] && vs[2] == ws[2] && vs[3] == ws[3] && vs[5] == ws[5];
  }

  /** The receipt hash covers the entire chain of custody. */
  lemma ReceiptHashCoversCustody(h: Hash, id: string, c: Custody, now: int, id': string, d: Custody, now': int)
    requires CollisionFree(h)
    requires Witness(h, id, c, now).receiptHash == Witness(h, id', d, now').receiptHash
    ensures id == id' && SameCustody(c, d)
  {
    ReceiptValuesAgree(h, id, c, id', d);
    PartHashesAgree(h, id, c, id', d);
    VerificationHashBinds(h, c.verification, d.verification);
    GovernanceHashBinds(h, c.governance, d.governance);
    ExecutionHashBinds(h, c, d);
    ResultBinds(c.result, d.result);
    SameApproval(h, c.approval, d.approval);
  }

  lemma SameApproval(h: Hash, a: Option<Approval>, b: Option<Approval>)
    requires CollisionFree(h) && ApprovalHash(h, a) == ApprovalHash(h, b)
    ensures a == b
  {
    if a.Some? {
      ApprovalHashBinds(h, a.value, b.value);
    }
  }

  // ---------------------------------------------------------------------
  // A7: the formal ledger entry
  // ---------------------------------------------------------------------

  datatype FormalEntry = FormalEntry(
    blockIndex: int,
    receiptHash: string,
    previousLedgerHash: string,
    currentHash: string,
    timestamp: int,
    payload: Value
  )

  const PAYLOAD_FIELDS := [
    "receipt_id", "intent_hash", "verification_hash", "decision_hash", "approval_hash", "execution_hash",
    "outcome_status" ]

  function Payload(r: Receipt): Value {
    Record(PAYLOAD_FIELDS,
      [ String(r.receiptId), String(r.intentHash), String(r.verificationHash), String(r.decisionHash),
        OrNull(r.approvalHash), String(r.executionHash), String(if r.success then "SUCCESS" else "FAILURE") ])
  }

  const BLOCK_FIELDS := ["block_index", "receipt_hash", "previous_ledger_hash", "timestamp", "payload"]

  function BlockValues(r: Receipt, blockIndex: int, previous: string): seq<Value> {
    [Integer(blockIndex), String(r.receiptHash), String(previous), Integer(r.timestamp), Payload(r)]
  }

  /** buildFormalLedgerEntry. */
  function FormalLedgerEntry(h: Hash, r: Receipt, blockIndex: int, previous: string): FormalEntry {
    FormalEntry(blockIndex, r.receiptHash, previous,
      JsonHash(h, Record(BLOCK_FIELDS, BlockValues(r, blockIndex, previous))), r.timestamp, Payload(r))
  }

  /** Equal entry hashes: same place in the ledger, same predecessor, same receipt. */
  lemma EntryHashCoversReceipt(h: Hash, r: Receipt, i: int, p: string, r': Receipt, i': int, p': string)
    requires CollisionFree(h)
    requires FormalLedgerEntry(h, r, i, p).currentHash == FormalLedgerEntry(h, r', i', p').currentHash
    ensures i == i' && p == p' && r.receiptHash == r'.receiptHash && r.timestamp == r'.timestamp
  {
    BlockFieldsDistinct();
    RecordHashBinds(h, BLOCK_FIELDS, BlockValues(r, i, p), BlockValues(r', i', p'));
    SameBlock(r, i, p, r', i', p');
  }

  lemma BlockFieldsDistinct()
    ensures Distinct(BLOCK_FIELDS)
  {
  }

  lemma SameBlock(r: Receipt, i: int, p: string, r': Receipt, i': int, p': string)
    requires AllAgree(BlockValues(r, i, p), BlockValues(r', i', p'))
    ensures i == i' && p == p' && r.receiptHash == r'.receiptHash && r.timestamp == r'.timestamp
  {
    var vs, ws := BlockValues(r, i, p), BlockValues(r', i', p');
    assert Agree(vs, ws, 0) && Agree(vs, ws, 1) && Agree(vs, ws, 2) && Agree(vs, ws, 3);
    DecimalInjective(i, i');
    DecimalInjective(r.timestamp, r'.timestamp);
  }
}
