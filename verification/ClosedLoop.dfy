/** The closed loop: verify, govern, authorize, issue, gate, execute, witness, record
    (legacy/one-app/server/controlPlane.ts). */
module ClosedLoop {
  import opened Hashing
  import opened Json
  import opened Wrappers
  import opened Intents
  import opened Verification
  import opened Gate
  import opened Receipts

  /** What the connector does when called: it returns a result or throws. */
  datatype Connector = Returns(result: ConnectorResult) | Throws(message: string, at: int)

  /** The clock reads and fresh ids of one call, in the order they are taken. */
  datatype Inputs = Inputs(
    verificationId: string, verifyNow: int, cleanNow: int,
    decisionId: string, governNow: int,
    tokenId: string, tokenNonce: string, issueNow: int, gateNow: int,
    receiptId: string, receiptNow: int
  )

  datatype Request = Request(
    envelope: Envelope,
    meta: ToolMeta,
    approval: Option<Approval>,
    connector: Connector,
    previousLedgerHash: string,
    blockIndex: int,
    options: Options,
    inputs: Inputs
  )

  /** Silence equals refusal; an approval may also be at fault. */
  datatype Refusal = NoApproval | Faulty(faults: seq<ApprovalFault>)

  datatype Outcome =
    | FailedVerification(verification: VerificationResult)
    | FailedAuthorization(verification: VerificationResult, governance: Governance, refusal: Refusal)
    | FailedGate(verification: VerificationResult, governance: Governance, token: Token, checks: Checks)
    | Complete(custody: Custody, checks: Checks)

  datatype State = State(cache: Cache, tokens: Tokens, connectorCalls: seq<Value>)

  function ResultOf(c: Connector): ConnectorResult {
    match c
    case Returns(r) => r
    case Throws(message, at) =>
      ConnectorResult(false, Null, Some(Object([Member("error", String(message))])), at)
  }

  function Refused(g: Governance, approval: Option<Approval>): Option<Refusal> {
    if g.decision != RequireHumanApproval then None
    else if approval.None? then Some(NoApproval)
    else
      var faults := ApprovalFaults(approval.value, g);
      if |faults| == 0 then None else Some(Faulty(faults))
  }

  /** Issue a token, pass the gate with it, and call the connector. */
  function CarryOut(h: Hash, s: State, r: Request, v: VerificationResult, g: Governance): (State, Outcome) {
    var f := r.inputs;
    var t := NewToken(h, r.envelope, g, DEFAULT_TOKEN_TTL_MS, f.issueNow, f.tokenId, f.tokenNonce);
    var issued := s.tokens[f.tokenId := t];
    var checks := GateChecks(h, issued, t, r.envelope, g, f.gateNow);
    if !checks.AllPass() then (s.(tokens := issued), FailedGate(v, g, t, checks))
    else
      (State(s.cache, issued[f.tokenId := t.(used := true)], s.connectorCalls + [r.envelope.parameters]),
       Complete(Custody(r.envelope, v, g, r.approval, t.(used := true), ResultOf(r.connector)), checks))
  }

  /** executeClosedLoop, as a function of the runtime's state. */
  function Run(h: Hash, s: State, r: Request): (State, Outcome) {
    var f := r.inputs;
    var v := Verify(h, s.cache, r.envelope, r.options, f.verifyNow, f.cleanNow, f.verificationId);
    var s1 := s.(cache := Remember(s.cache, r.envelope, f.verifyNow, f.cleanNow));
    var governed := Evaluate(r.envelope, v, r.meta, f.decisionId, f.governNow);
    if governed.None? then (s1, FailedVerification(v))
    else
      var g := governed.value;
      var refused := Refused(g, r.approval);
      if refused.Some? then (s1, FailedAuthorization(v, g, refused.value)) else CarryOut(h, s1, r, v, g)
  }

  /** The receipt and the ledger entry of a completed loop. */
  function ReceiptOf(h: Hash, r: Request, c: Custody): Receipt {
    Witness(h, r.inputs.receiptId, c, r.inputs.receiptNow)
  }

  function EntryOf(h: Hash, r: Request, c: Custody): FormalEntry {
    FormalLedgerEntry(h, ReceiptOf(h, r, c), r.blockIndex, r.previousLedgerHash)
  }

  /** A human approved this very envelope in this very decision. */
  ghost predicate Authorized(h: Hash, r: Request) {
    r.approval.Some? && Authorizes(h, r.approval.value, r.envelope, r.inputs.decisionId)
  }

  ghost predicate Verified(h: Hash, s: State, r: Request) {
    Verify(h, s.cache, r.envelope, r.options, r.inputs.verifyNow, r.inputs.cleanNow, r.inputs.verificationId).verified
  }

  lemma AuthorizationIsDecided(h: Hash, s: State, r: Request, v: VerificationResult, g: Governance)
    requires v.intentHash == HashEnvelope(h, r.envelope)
    requires Evaluate(r.envelope, v, r.meta, r.inputs.decisionId, r.inputs.governNow) == Some(g)
    ensures Refused(g, r.approval).None? <==> r.meta.riskTier == "LOW" || Authorized(h, r)
  {
    if r.approval.Some? {
      ValidApprovalAuthorizes(h, r.approval.value, g, r.envelope);
    }
  }

  lemma OwnTokenPasses(h: Hash, tokens: Tokens, r: Request, g: Governance)
    ensures var f := r.inputs;
      var t := NewToken(h, r.envelope, g, DEFAULT_TOKEN_TTL_MS, f.issueNow, f.tokenId, f.tokenNonce);
      (Passes(h, tokens[f.tokenId := t], t, r.envelope, g, f.gateNow) <==>
       f.gateNow - f.issueNow < DEFAULT_TOKEN_TTL_MS)
  {
    var f := r.inputs;
    var t := NewToken(h, r.envelope, g, DEFAULT_TOKEN_TTL_MS, f.issueNow, f.tokenId, f.tokenNonce);
    FreshTokenPasses(h, tokens[f.tokenId := t], r.envelope, g, DEFAULT_TOKEN_TTL_MS, f.issueNow,
      f.tokenId, f.tokenNonce, f.gateNow);
  }

  /** The loop completes exactly when the envelope is verified, the risk tier is LOW or a
      human approved this very envelope, and the gate is reached before the token expires. */
  lemma CompletesIff(h: Hash, s: State, r: Request)
    ensures Run(h, s, r).1.Complete? <==>
      Verified(h, s, r) && (r.meta.riskTier == "LOW" || Authorized(h, r))
      && r.inputs.gateNow - r.inputs.issueNow < DEFAULT_TOKEN_TTL_MS
  {
    var f := r.inputs;
    var v := Verify(h, s.cache, r.envelope, r.options, f.verifyNow, f.cleanNow, f.verificationId);
    var governed := Evaluate(r.envelope, v, r.meta, f.decisionId, f.governNow);
    if governed.Some? {
      AuthorizationIsDecided(h, s, r, v, governed.value);
      OwnTokenPasses(h, s.tokens, r, governed.value);
    }
  }

  /** The connector is called once, with the envelope's parameters, exactly when the loop
      completes; otherwise not at all. */
  lemma ConnectorCalledIffComplete(h: Hash, s: State, r: Request)
    ensures var (after, outcome) := Run(h, s, r);
      if outcome.Complete? then after.connectorCalls == s.connectorCalls + [r.envelope.parameters]
      else after.connectorCalls == s.connectorCalls
  {
  }

  /** The approval was made out before the decision it would have to name. */
  predicate ApprovalPrecedesDecision(r: Request) {
    r.approval.Some? ==> r.approval.value.decisionId != r.inputs.decisionId
  }

  /** The code draws the decision id inside the call, after the caller handed over the
      approval. Then no approval authorizes anything: the loop completes exactly for a
      verified envelope of the LOW tier, in time. */
  lemma NewDecisionIdRefusesApprovals(h: Hash, s: State, r: Request)
    requires ApprovalPrecedesDecision(r)
    ensures Run(h, s, r).1.Complete? <==>
      Verified(h, s, r) && r.meta.riskTier == "LOW" && r.inputs.gateNow - r.inputs.issueNow < DEFAULT_TOKEN_TTL_MS
    ensures Verified(h, s, r) && r.meta.riskTier != "LOW" ==> Run(h, s, r).1.FailedAuthorization?
  {
    CompletesIff(h, s, r);
    if Verified(h, s, r) && r.meta.riskTier != "LOW" {
      RefusedUnlessLow(h, s, r);
    }
  }

  lemma RefusedUnlessLow(h: Hash, s: State, r: Request)
    requires ApprovalPrecedesDecision(r) && Verified(h, s, r) && r.meta.riskTier != "LOW"
    ensures Run(h, s, r).1.FailedAuthorization?
  {
    var f := r.inputs;
    var v := Verify(h, s.cache, r.envelope, r.options, f.verifyNow, f.cleanNow, f.verificationId);
    AuthorizationIsDecided(h, s, r, v, Evaluate(r.envelope, v, r.meta, f.decisionId, f.governNow).value);
  }

  /** Above the LOW tier, the parameters the connector receives are those of the envelope
      whose hash the human approved, for a caller that knows the decision id beforehand. */
  lemma ExecutedParametersWereApproved(h: Hash, s: State, r: Request, approved: Envelope)
    requires CollisionFree(h) && Run(h, s, r).1.Complete? && r.meta.riskTier != "LOW"
    requires r.approval.Some? ==> r.approval.value.intentHash == HashEnvelope(h, approved)
    ensures r.approval.Some? && r.approval.value.approvalStatus == Approved
    ensures SameEnvelope(r.envelope, approved)
    ensures Denote(Run(h, s, r).0.connectorCalls[|s.connectorCalls|]) == Denote(approved.parameters)
  {
    CompletesIff(h, s, r);
    HashBindsEnvelope(h, r.envelope, approved);
    ConnectorCalledIffComplete(h, s, r);
  }

  /** What a completed loop puts in its receipt: a verified envelope and its own used token. */
  lemma CustodyMatchesRun(h: Hash, s: State, r: Request)
    requires Run(h, s, r).1.Complete?
    ensures var c := Run(h, s, r).1.custody;
      c.envelope == r.envelope && c.verification.verified && c.approval == r.approval &&
      c.verification.intentHash == c.governance.intentHash == c.token.intentHash == HashEnvelope(h, r.envelope) &&
      c.token.tokenId == r.inputs.tokenId && c.token.actionHash == ActionHash(h, r.envelope) &&
      c.token.target == r.envelope.target && c.token.policyVersion == r.envelope.policyVersionTarget &&
      c.token.issuedAt == r.inputs.issueNow && c.token.expiresAt == r.inputs.issueNow + 300_000 &&
      c.token.nonce == r.inputs.tokenNonce && c.token.used &&
      c.verification.verificationId == c.governance.verificationId == r.inputs.verificationId &&
      c.verification.timestamp == r.inputs.verifyNow &&
      c.governance.decisionId == r.inputs.decisionId && c.governance.timestamp == r.inputs.governNow
    ensures var c := Run(h, s, r).1.custody;
      Run(h, s, r).0.tokens == s.tokens[r.inputs.tokenId := c.token]
  {
  }

  /** The custody of a completed loop carries what the connector said, or that it threw; the
      receipt and the ledger entry carry it on. */
  lemma CustodyTellsResult(h: Hash, s: State, r: Request)
    requires Run(h, s, r).1.Complete?
    ensures var c := Run(h, s, r).1.custody;
      (r.connector.Returns? ==> c.result == r.connector.result) &&
      (r.connector.Throws? ==>
        !c.result.success && c.result.output == Null && c.result.executedAt == r.connector.at &&
        c.result.metadata == Some(Object([Member("error", String(r.connector.message))]))) &&
      ReceiptOf(h, r, c).success == c.result.success && ReceiptOf(h, r, c).verified &&
      ReceiptOf(h, r, c).receiptId == r.inputs.receiptId && ReceiptOf(h, r, c).custody == c
    ensures var c := Run(h, s, r).1.custody;
      var entry := EntryOf(h, r, c);
      entry.receiptHash == ReceiptOf(h, r, c).receiptHash && entry.blockIndex == r.blockIndex &&
      entry.previousLedgerHash == r.previousLedgerHash && entry.timestamp == r.inputs.receiptNow
  {
  }

  /** Two completed loops whose ledger entries have one hash had the same envelope, the same
      approval by the same human, the same token and the same result. */
  lemma EntryHashCoversRun(h: Hash, s: State, r: Request, s': State, r': Request)
    requires CollisionFree(h) && Run(h, s, r).1.Complete? && Run(h, s', r').1.Complete?
    requires EntryOf(h, r, Run(h, s, r).1.custody).currentHash == EntryOf(h, r', Run(h, s', r').1.custody).currentHash
    ensures SameEnvelope(r.envelope, r'.envelope) && r.approval == r'.approval && r.inputs.tokenId == r'.inputs.tokenId
    ensures SameResult(Run(h, s, r).1.custody.result, Run(h, s', r').1.custody.result)
  {
    var c, d := Run(h, s, r).1.custody, Run(h, s', r').1.custody;
    EntryHashCoversCustody(h, r, c, r', d);
    CustodyMatchesRun(h, s, r);
    CustodyMatchesRun(h, s', r');
    HashBindsEnvelope(h, r.envelope, r'.envelope);
  }

  /** Equal ledger entry hashes come from the same verified intent, decision, approval and result. */
  lemma EntryHashCoversCustody(h: Hash, r: Request, c: Custody, r': Request, c': Custody)
    requires CollisionFree(h) && EntryOf(h, r, c).currentHash == EntryOf(h, r', c').currentHash
    ensures SameCustody(c, c') && r.blockIndex == r'.blockIndex && r.previousLedgerHash == r'.previousLedgerHash
  {
    EntryHashCoversReceipt(h, ReceiptOf(h, r, c), r.blockIndex, r.previousLedgerHash,
      ReceiptOf(h, r', c'), r'.blockIndex, r'.previousLedgerHash);
    ReceiptHashCoversCustody(h, r.inputs.receiptId, c, r.inputs.receiptNow,
      r'.inputs.receiptId, c', r'.inputs.receiptNow);
  }

  // ---------------------------------------------------------------------
  // Runs of the loop
  // ---------------------------------------------------------------------

  /** A run of the loop from an empty runtime: the states it goes through and what each
      request comes to. */
  ghost predicate IsRun(h: Hash, states: seq<State>, requests: seq<Request>, outcomes: seq<Outcome>) {
    |states| == |requests| + 1 && |outcomes| == |requests| && states[0] == State(map[], map[], []) &&
    forall i {:trigger Run(h, states[i], requests[i])} | 0 <= i < |requests| ::
      (states[i + 1], outcomes[i]) == Run(h, states[i], requests[i])
  }

  function CallOf(r: Request): Call {
    Call(r.envelope, r.options, r.inputs.verifyNow, r.inputs.cleanNow, r.inputs.verificationId)
  }

  function CallsOf(requests: seq<Request>): seq<Call> {
    seq(|requests|, i requires 0 <= i < |requests| => CallOf(requests[i]))
  }

  lemma StepRemembers(h: Hash, states: seq<State>, requests: seq<Request>, outcomes: seq<Outcome>, i: nat)
    requires IsRun(h, states, requests, outcomes) && i < |requests|
    ensures var c := CallOf(requests[i]);
      states[i + 1].cache == Remember(states[i].cache, c.e, c.now, c.cleanNow)
  {
    assert states[i + 1] == Run(h, states[i], requests[i]).0;
  }

  lemma StepLogs(h: Hash, states: seq<State>, requests: seq<Request>, outcomes: seq<Outcome>, i: nat)
    requires IsRun(h, states, requests, outcomes) && i < |requests|
    ensures states[i + 1].connectorCalls ==
      if outcomes[i].Complete? then states[i].connectorCalls + [requests[i].envelope.parameters]
      else states[i].connectorCalls
  {
    ConnectorCalledIffComplete(h, states[i], requests[i]);
  }

  lemma StepVerified(h: Hash, states: seq<State>, requests: seq<Request>, outcomes: seq<Outcome>, i: nat)
    requires IsRun(h, states, requests, outcomes) && i < |requests| && outcomes[i].Complete?
    ensures Verified(h, states[i], requests[i])
  {
    CompletesIff(h, states[i], requests[i]);
  }

  lemma {:induction false} CachesAgree(h: Hash, states: seq<State>, requests: seq<Request>, outcomes: seq<Outcome>,
      n: nat)
    requires IsRun(h, states, requests, outcomes) && n <= |requests|
    ensures states[n].cache == CacheAfter(CallsOf(requests), n)
  {
    if n > 0 {
      CachesAgree(h, states, requests, outcomes, n - 1);
      StepRemembers(h, states, requests, outcomes, n - 1);
      assert CallsOf(requests)[n - 1] == CallOf(requests[n - 1]);
    }
  }

  lemma CompletesOnlyIfVerified(h: Hash, states: seq<State>, requests: seq<Request>, outcomes: seq<Outcome>, n: nat)
    requires IsRun(h, states, requests, outcomes) && n < |requests| && outcomes[n].Complete?
    ensures ResultAt(h, CallsOf(requests), n).verified
  {
    CachesAgree(h, states, requests, outcomes, n);
    StepVerified(h, states, requests, outcomes, n);
    assert CallsOf(requests)[n] == CallOf(requests[n]);
  }

  /** Over any run the same envelope is executed at most once, for as many approvals and
      requests as there may be. */
  lemma ExecutedAtMostOnce(h: Hash, states: seq<State>, requests: seq<Request>, outcomes: seq<Outcome>, i: nat, j: nat)
    requires IsRun(h, states, requests, outcomes)
    requires i < j < |requests| && requests[i].envelope == requests[j].envelope
    requires ClockWithin(CallsOf(requests), NONCE_TTL_MS - INTENT_TTL_MS)
    ensures !(outcomes[i].Complete? && outcomes[j].Complete?)
  {
    if outcomes[i].Complete? && outcomes[j].Complete? {
      CompletesOnlyIfVerified(h, states, requests, outcomes, i);
      CompletesOnlyIfVerified(h, states, requests, outcomes, j);
      VerifiedAtMostOnce(h, CallsOf(requests), i, j);
    }
  }

  /** The parameters of the requests that complete, in order. */
  function Completed(requests: seq<Request>, outcomes: seq<Outcome>, n: nat): seq<Value>
    requires n <= |requests| && n <= |outcomes|
  {
    if n == 0 then []
    else if outcomes[n - 1].Complete?
    then Completed(requests, outcomes, n - 1) + [requests[n - 1].envelope.parameters]
    else Completed(requests, outcomes, n - 1)
  }

  /** The connector has been called once for each completed request and no more. */
  lemma {:induction false} ConnectorLogIsCompletedRequests(h: Hash, states: seq<State>, requests: seq<Request>,
                                                           outcomes: seq<Outcome>, n: nat)
    requires IsRun(h, states, requests, outcomes) && n <= |requests|
    ensures states[n].connectorCalls == Completed(requests, outcomes, n)
  {
    if n > 0 {
      ConnectorLogIsCompletedRequests(h, states, requests, outcomes, n - 1);
      StepLogs(h, states, requests, outcomes, n - 1);
    }
  }

  /** With decision ids drawn inside the calls, a run executes LOW tier requests only. */
  lemma OnlyLowTierExecutes(h: Hash, states: seq<State>, requests: seq<Request>, outcomes: seq<Outcome>, i: nat)
    requires IsRun(h, states, requests, outcomes) && i < |requests| && ApprovalPrecedesDecision(requests[i])
    ensures outcomes[i].Complete? ==> requests[i].meta.riskTier == "LOW"
  {
    assert outcomes[i] == Run(h, states[i], requests[i]).1;
    NewDecisionIdRefusesApprovals(h, states[i], requests[i]);
  }

  /** In a run, a request completes exactly if its envelope is complete and of a known source,
      its actor is known where a list is given, it is signed where that is asked for, it is at
      most five minutes old, its nonce was not seen in the last ten minutes, its tier is LOW
      or an APPROVED record with an artifact names this decision and the hash of this
      envelope, and the gate is reached within five minutes of the token. */
  lemma CompletesExactly(h: Hash, states: seq<State>, requests: seq<Request>, outcomes: seq<Outcome>, i: nat)
    requires IsRun(h, states, requests, outcomes) && i < |requests|
    ensures var r := requests[i];
      var e, o, f, cache := r.envelope, r.options, r.inputs, states[i].cache;
      outcomes[i].Complete? <==>
      (e.intentId != "" && e.requestId != "" && e.sourceId != "" && e.actorId != "" && e.nonce != "" &&
       e.actionType != "" && e.target != "" && (e.parameters.Object? || e.parameters.Array?) &&
       (e.sourceType == "HUMAN" || e.sourceType == "AI_AGENT" || e.sourceType == "SYSTEM" || e.sourceType == "API") &&
       (o.knownActorIds.Some? ==> e.actorId in o.knownActorIds.value) &&
       (o.requireSignature ==> e.signature.Some? && |e.signature.value| >= 10) &&
       0 <= f.verifyNow - e.timestamp <= 300_000 &&
       (e.nonce !in cache || f.cleanNow - cache[e.nonce] > 600_000) &&
       (r.meta.riskTier == "LOW" ||
        (r.approval.Some? && r.approval.value.approvalStatus == Approved &&
         r.approval.value.decisionId == f.decisionId && r.approval.value.intentHash == HashEnvelope(h, e) &&
         |r.approval.value.approvalArtifact| >= 10)) &&
       f.gateNow - f.issueNow < 300_000)
  {
    var r := requests[i];
    var f := r.inputs;
    OutcomeOf(h, states, requests, outcomes, i);
    CompletesIff(h, states[i], r);
    VerifiedIff(h, states[i].cache, r.envelope, r.options, f.verifyNow, f.cleanNow, f.verificationId);
  }

  lemma OutcomeOf(h: Hash, states: seq<State>, requests: seq<Request>, outcomes: seq<Outcome>, i: nat)
    requires IsRun(h, states, requests, outcomes) && i < |requests|
    ensures outcomes[i] == Run(h, states[i], requests[i]).1
  {
  }
}
