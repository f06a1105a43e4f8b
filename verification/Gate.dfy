/** A3 to A5: governance, approval binding and the single-use execution token
    (legacy/one-app/server/controlPlane.ts). Clock reads and fresh ids are inputs. */
module Gate {
  import opened Hashing
  import opened Json
  import opened Wrappers
  import opened Intents
  import opened Verification

  // ---------------------------------------------------------------------
  // A3: governance
  // ---------------------------------------------------------------------

  datatype Decision = Approve | Deny | RequireHumanApproval

  /** The single reason a decision carries. */
  datatype RiskReason = AutoApproved | NeedsApproval | NeedsExplicitAuthorization

  datatype ToolMeta = ToolMeta(riskTier: string, blastRadiusBase: int)

  datatype Governance = Governance(
    decisionId: string,
    intentHash: string,
    verificationId: string,
    policyVersion: string,
    riskScore: int,
    riskLevel: string,
    decision: Decision,
    requiredApprovals: nat,
    reason: RiskReason,
    reviewBlastRadius: bool,
    timestamp: int
  )

  /** Object.keys of the parameters: an array's keys are its indices. */
  function ArgCount(parameters: Value): nat {
    match parameters
    case Object(ms) => |ms|
    case Array(items) => |items|
    case String(s) => |s|
    case _ => 0
  }

  function RiskScore(parameters: Value, meta: ToolMeta): int {
    var raised := meta.blastRadiusBase + ArgCount(parameters) / 2;
    if raised < 10 then raised else 10
  }

  /** evaluateGovernance; refuses an unverified intent. */
  function Evaluate(e: Envelope, v: VerificationResult, meta: ToolMeta, id: string, now: int): Option<Governance> {
    if !v.verified then None
    else
      var score := RiskScore(e.parameters, meta);
      var low, medium := meta.riskTier == "LOW", meta.riskTier == "MEDIUM";
      Some(Governance(
        id, v.intentHash, v.verificationId, e.policyVersionTarget, score, meta.riskTier,
        if low then Approve else RequireHumanApproval,
        if low then 0 else 1,
        if low then AutoApproved else if medium then NeedsApproval else NeedsExplicitAuthorization,
        !low && !medium && score >= 8,
        now))
  }

  /** A decision exists exactly for a verified intent; only the LOW tier goes without a human. */
  lemma GovernanceIs(e: Envelope, v: VerificationResult, meta: ToolMeta, id: string, now: int)
    ensures Evaluate(e, v, meta, id, now).Some? <==> v.verified
    ensures v.verified ==>
      var g := Evaluate(e, v, meta, id, now).value;
      g.decisionId == id && g.intentHash == v.intentHash && g.verificationId == v.verificationId &&
      g.policyVersion == e.policyVersionTarget && g.riskLevel == meta.riskTier && g.timestamp == now &&
      (if meta.riskTier == "LOW" then g.decision == Approve && g.requiredApprovals == 0 && g.reason == AutoApproved
       else g.decision == RequireHumanApproval && g.requiredApprovals == 1) &&
      (g.reason == NeedsApproval <==> meta.riskTier == "MEDIUM")
  {
    assert |"LOW"| == 3 && |"MEDIUM"| == 6;
  }

  /** The score rises by one for every two arguments, up to ten; eight or more asks for a
      review, outside the LOW and MEDIUM tiers. */
  lemma ScoreIs(e: Envelope, v: VerificationResult, meta: ToolMeta, id: string, now: int, args: int)
    requires v.verified
    requires (e.parameters.Object? && args == |e.parameters.members|) ||
             (e.parameters.Array? && args == |e.parameters.items|)
    ensures var g := Evaluate(e, v, meta, id, now).value;
      (g.riskScore == 10 || g.riskScore == meta.blastRadiusBase + args / 2) &&
      g.riskScore <= 10 && g.riskScore <= meta.blastRadiusBase + args / 2 &&
      (g.reviewBlastRadius <==>
       meta.riskTier != "LOW" && meta.riskTier != "MEDIUM" && meta.blastRadiusBase + args / 2 >= 8)
  {
  }

  // ---------------------------------------------------------------------
  // A4: the human authorization boundary
  // ---------------------------------------------------------------------

  datatype ApprovalStatus = Approved | Rejected

  datatype Approval = Approval(
    approvalId: string,
    decisionId: string,
    intentHash: string,
    approverId: string,
    approvalStatus: ApprovalStatus,
    authMethod: string,
    approvalArtifact: string,
    timestamp: int,
    notes: Option<string>
  )

  datatype ApprovalFault = IntentHashMismatch | DecisionIdMismatch | NotApproved | ArtifactTooShort

  /** validateApproval: the reasons against an approval. */
  function ApprovalFaults(a: Approval, g: Governance): seq<ApprovalFault> {
    (if a.intentHash == g.intentHash then [] else [IntentHashMismatch])
    + (if a.decisionId == g.decisionId then [] else [DecisionIdMismatch])
    + (if a.approvalStatus == Approved then [] else [NotApproved])
    + (if |a.approvalArtifact| >= 10 then [] else [ArtifactTooShort])
  }

  /** What a valid approval is worth: it names this decision and the hash of this envelope. */
  ghost predicate Authorizes(h: Hash, a: Approval, e: Envelope, decisionId: string) {
    a.approvalStatus == Approved && a.decisionId == decisionId &&
    a.intentHash == HashEnvelope(h, e) && |a.approvalArtifact| >= 10
  }

  lemma ValidApprovalAuthorizes(h: Hash, a: Approval, g: Governance, e: Envelope)
    requires g.intentHash == HashEnvelope(h, e)
    ensures |ApprovalFaults(a, g)| == 0 <==> Authorizes(h, a, e, g.decisionId)
  {
  }

  /** Each reason is given exactly if it applies. */
  lemma FaultsIff(a: Approval, g: Governance)
    ensures var faults := ApprovalFaults(a, g);
      (IntentHashMismatch in faults <==> a.intentHash != g.intentHash) &&
      (DecisionIdMismatch in faults <==> a.decisionId != g.decisionId) &&
      (NotApproved in faults <==> a.approvalStatus == Rejected) &&
      (ArtifactTooShort in faults <==> |a.approvalArtifact| < 10)
  {
  }

  // ---------------------------------------------------------------------
  // A5: the execution token and the preflight gate
  // ---------------------------------------------------------------------

  const DEFAULT_TOKEN_TTL_MS := 5 * 60 * 1000

  datatype Token = Token(
    tokenId: string,
    intentHash: string,
    actionHash: string,
    policyVersion: string,
    ttl: int,
    issuedAt: int,
    expiresAt: int,
    nonce: string,
    target: string,
    used: bool
  )

  const ACTION_FIELDS := ["action_type", "target", "parameters"]

  function ActionValues(e: Envelope): seq<Value> {
    [String(e.actionType), String(e.target), e.parameters]
  }

  function ActionHash(h: Hash, e: Envelope): string {
    h(Stringify(Record(ACTION_FIELDS, ActionValues(e))))
  }

  lemma HashBindsAction(h: Hash, e: Envelope, f: Envelope)
    requires CollisionFree(h) && ActionHash(h, e) == ActionHash(h, f)
    ensures e.actionType == f.actionType && e.target == f.target && Denote(e.parameters) == Denote(f.parameters)
  {
    ActionFieldsDistinct();
    RecordBinds(ACTION_FIELDS, ActionValues(e), ActionValues(f));
    SameAction(e, f);
  }

  lemma ActionFieldsDistinct()
    ensures Distinct(ACTION_FIELDS)
  {
  }

  lemma SameAction(e: Envelope, f: Envelope)
    requires AllAgree(ActionValues(e), ActionValues(f))
    ensures e.actionType == f.actionType && e.target == f.target && Denote(e.parameters) == Denote(f.parameters)
  {
    var vs, ws := ActionValues(e), ActionValues(f);
    assert Agree(vs, ws, 0) && Agree(vs, ws, 1) && Agree(vs, ws, 2);
  }

  type Tokens = map<string, Token>

  function NewToken(h: Hash, e: Envelope, g: Governance, ttlMs: int, now: int, id: string, nonce: string): Token {
    Token(id, g.intentHash, ActionHash(h, e), g.policyVersion, ttlMs, now, now + ttlMs, nonce, e.target, false)
  }

  /** The six checks of the preflight gate. */
  datatype Checks = Checks(
    tokenValid: bool,
    tokenNotExpired: bool,
    intentHashMatch: bool,
    actionHashMatch: bool,
    policyVersionMatch: bool,
    targetMatch: bool
  ) {
    predicate AllPass() {
      tokenValid && tokenNotExpired && intentHashMatch && actionHashMatch && policyVersionMatch && targetMatch
    }
  }

  /** executeGatePreflight on a presented token, which may be any copy; the stored one
      decides only whether it exists and is unused. */
  function GateChecks(h: Hash, tokens: Tokens, t: Token, e: Envelope, g: Governance, now: int): Checks {
    Checks(
      t.tokenId in tokens && !tokens[t.tokenId].used, now < t.expiresAt, t.intentHash == g.intentHash,
      t.actionHash == ActionHash(h, e), t.policyVersion == g.policyVersion, t.target == e.target)
  }

  predicate Passes(h: Hash, tokens: Tokens, t: Token, e: Envelope, g: Governance, now: int) {
    GateChecks(h, tokens, t, e, g, now).AllPass()
  }

  function AfterPreflight(h: Hash, tokens: Tokens, t: Token, e: Envelope, g: Governance, now: int): Tokens {
    if Passes(h, tokens, t, e, g, now) && t.tokenId in tokens
    then tokens[t.tokenId := tokens[t.tokenId].(used := true)]
    else tokens
  }

  /** A token passes against its own envelope and governance exactly while it is stored
      unused and less than its time to live has gone by. */
  lemma FreshTokenPasses(h: Hash, tokens: Tokens, e: Envelope, g: Governance, ttlMs: int,
                         issued: int, id: string, nonce: string, now: int)
    ensures Passes(h, tokens, NewToken(h, e, g, ttlMs, issued, id, nonce), e, g, now) <==>
      id in tokens && !tokens[id].used && now - issued < ttlMs
  {
  }

  /** An issued token lets through only the action it was issued for. */
  lemma TokenBindsAction(h: Hash, tokens: Tokens, e: Envelope, g: Governance, ttlMs: int, issued: int,
                         id: string, nonce: string, e': Envelope, g': Governance, now: int)
    requires CollisionFree(h)
    requires Passes(h, tokens, NewToken(h, e, g, ttlMs, issued, id, nonce), e', g', now)
    ensures e'.actionType == e.actionType && e'.target == e.target && Denote(e'.parameters) == Denote(e.parameters)
    ensures g'.intentHash == g.intentHash && g'.policyVersion == g.policyVersion
  {
    HashBindsAction(h, e', e);
  }

  // ---------------------------------------------------------------------
  // Runs of issues and preflights
  // ---------------------------------------------------------------------

  datatype Op =
    | Issue(e: Envelope, g: Governance, ttlMs: int, now: int, id: string, nonce: string)
    | Preflight(t: Token, e: Envelope, g: Governance, now: int)

  function Step(h: Hash, tokens: Tokens, op: Op): Tokens {
    match op
    case Issue(e, g, ttlMs, now, id, nonce) => tokens[id := NewToken(h, e, g, ttlMs, now, id, nonce)]
    case Preflight(t, e, g, now) => AfterPreflight(h, tokens, t, e, g, now)
  }

  /** Ids given to issue are new when they are given. */
  ghost predicate IssuesFresh(h: Hash, tokens: Tokens, ops: seq<Op>)
    decreases |ops|
  {
    |ops| > 0 ==> (ops[0].Issue? ==> ops[0].id !in tokens) && IssuesFresh(h, Step(h, tokens, ops[0]), ops[1..])
  }

  /** How many preflights of a run let a token with this id through. */
  ghost function PassCount(h: Hash, tokens: Tokens, ops: seq<Op>, id: string): nat
    decreases |ops|
  {
    if |ops| == 0 then 0
    else
      var op := ops[0];
      (if op.Preflight? && op.t.tokenId == id && Passes(h, tokens, op.t, op.e, op.g, op.now) then 1 else 0)
      + PassCount(h, Step(h, tokens, op), ops[1..], id)
  }

  /** Whatever copies callers present, a token id passes at most once, and never after
      its stored token is used. */
  lemma {:induction false} PassesAtMostOnce(h: Hash, tokens: Tokens, ops: seq<Op>, id: string)
    requires IssuesFresh(h, tokens, ops)
    ensures PassCount(h, tokens, ops, id) <= if id in tokens && tokens[id].used then 0 else 1
    decreases |ops|
  {
    if |ops| > 0 {
      PassesAtMostOnce(h, Step(h, tokens, ops[0]), ops[1..], id);
    }
  }
}
