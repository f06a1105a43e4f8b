/** The control plane's module state and the operations that update it
    (legacy/one-app/server/controlPlane.ts), each proved against the function that
    specifies it. */
module ControlPlane {
  import opened Hashing
  import opened Json
  import opened Wrappers
  import opened Intents
  import opened Verification
  import opened Gate
  import opened Receipts
  import opened ClosedLoop

  class Runtime {
    const sha256: Hash
    var usedNonces: set<string>
    var nonceTimestamps: map<string, int>
    var executionTokens: map<string, Token>
    var connectorCalls: seq<Value>  // the arguments of each call made to a connector

    ghost predicate Valid()
      reads this
    {
      usedNonces == nonceTimestamps.Keys
    }

    ghost function Snapshot(): State
      reads this
    {
      State(nonceTimestamps, executionTokens, connectorCalls)
    }

    constructor (h: Hash)
      ensures Valid() && sha256 == h && Snapshot() == State(map[], map[], [])
    {
      sha256 := h;
      usedNonces := {};
      nonceTimestamps := map[];
      executionTokens := map[];
      connectorCalls := [];
    }

    method CleanExpiredNonces(now: int)
      requires Valid()
      modifies this`usedNonces, this`nonceTimestamps
      ensures Valid() && nonceTimestamps == Purge(old(nonceTimestamps), now)
    {
      var entries := nonceTimestamps.Keys;
      while entries != {}
        invariant Valid() && entries <= nonceTimestamps.Keys
        invariant forall n | n in nonceTimestamps ::
          n in old(nonceTimestamps) && nonceTimestamps[n] == old(nonceTimestamps)[n]
        invariant forall n | n in old(nonceTimestamps) && n !in nonceTimestamps ::
          now - old(nonceTimestamps)[n] > NONCE_TTL_MS
        invariant forall n | n in nonceTimestamps && n !in entries :: now - nonceTimestamps[n] <= NONCE_TTL_MS
        decreases entries
      {
        var nonce :| nonce in entries;
        if now - nonceTimestamps[nonce] > NONCE_TTL_MS {
          usedNonces := usedNonces - {nonce};
          nonceTimestamps := nonceTimestamps - {nonce};
        }
        entries := entries - {nonce};
      }
    }

    method EmptyFieldFailures(e: Envelope) returns (failures: seq<Failure>)
      ensures failures == EmptyFields(RequiredFields(e))
    {
      failures := [];
      var fields := RequiredFields(e);
      for i := 0 to |fields|
        invariant failures == EmptyFields(fields[..i])
      {
        assert fields[..i + 1][..i] == fields[..i];
        if fields[i].1 {
          failures := failures + [EmptyField(fields[i].0)];
        }
      }
      assert fields[..|fields|] == fields;
    }

    method CheckSchema(e: Envelope) returns (schemaValid: bool, failures: seq<Failure>)
      ensures schemaValid <==> SchemaValid(e)
      ensures failures == SchemaFailures(e)
    {
      failures := EmptyFieldFailures(e);
      schemaValid := |failures| == 0;
      NoMissingField(e);
      if !ObjectParameters(e) {
        schemaValid := false;
        failures := failures + [ParametersNotObject];
      }
      if !KnownSourceType(e.sourceType) {
        schemaValid := false;
        failures := failures + [InvalidSourceType(e.sourceType)];
      }
    }

    /** The replay check: false if the nonce is in the cleaned cache, else it is recorded. */
    method RecordNonce(e: Envelope, now: int, cleanNow: int) returns (unseen: bool)
      requires Valid()
      modifies this`usedNonces, this`nonceTimestamps
      ensures Valid()
      ensures unseen <==> e.nonce !in Purge(old(nonceTimestamps), cleanNow)
      ensures nonceTimestamps == Remember(old(nonceTimestamps), e, now, cleanNow)
    {
      CleanExpiredNonces(cleanNow);
      unseen := e.nonce !in usedNonces;
      if unseen && |e.nonce| > 0 {
        usedNonces := usedNonces + {e.nonce};
        nonceTimestamps := nonceTimestamps[e.nonce := now];
      }
    }

    method VerifyIntentEnvelope(e: Envelope, o: Options, now: int, cleanNow: int, id: string)
      returns (r: VerificationResult)
      requires Valid()
      modifies this`usedNonces, this`nonceTimestamps
      ensures Valid()
      ensures r == Verify(sha256, old(nonceTimestamps), e, o, now, cleanNow, id)
      ensures nonceTimestamps == Remember(old(nonceTimestamps), e, now, cleanNow)
    {
      var schemaValid, failures := CheckSchema(e);
      var authValid := true;
      if o.knownActorIds.Some? && e.actorId !in o.knownActorIds.value {
        authValid := false;
        failures := failures + [UnknownActor(e.actorId)];
      }
      var signatureValid := true;
      if o.requireSignature && (e.signature.None? || |e.signature.value| < 10) {
        signatureValid := false;
        failures := failures + [SignatureMissing];
      }
      var age := now - e.timestamp;
      var ttlValid := age >= 0 && age <= INTENT_TTL_MS;
      if !ttlValid {
        failures := failures + [IntentExpired(age)];
      }
      var nonceValid := |e.nonce| > 0;
      if !nonceValid {
        failures := failures + [NonceMissing];
      }
      var replayCheck := RecordNonce(e, now, cleanNow);
      if !replayCheck {
        failures := failures + [ReplayDetected(e.nonce)];
      }
      var verified := schemaValid && authValid && signatureValid && ttlValid && nonceValid && replayCheck;
      r := VerificationResult(id, HashEnvelope(sha256, e), schemaValid, authValid, signatureValid, ttlValid,
        nonceValid, replayCheck, verified, failures, now);
    }

    method IssueExecutionToken(e: Envelope, g: Governance, ttlMs: int, now: int, id: string, nonce: string)
      returns (t: Token)
      modifies this`executionTokens
      ensures t == NewToken(sha256, e, g, ttlMs, now, id, nonce)
      ensures t == Token(id, g.intentHash, ActionHash(sha256, e), g.policyVersion, ttlMs, now, now + ttlMs, nonce,
                         e.target, false)
      ensures executionTokens == old(executionTokens)[id := t]
    {
      t := Token(id, g.intentHash, ActionHash(sha256, e), g.policyVersion, ttlMs, now, now + ttlMs, nonce, e.target,
        false);
      executionTokens := executionTokens[id := t];
    }

    method ExecuteGatePreflight(t: Token, e: Envelope, g: Governance, now: int) returns (passed: bool, checks: Checks)
      modifies this`executionTokens
      ensures checks == GateChecks(sha256, old(executionTokens), t, e, g, now)
      ensures passed <==> Passes(sha256, old(executionTokens), t, e, g, now)
      ensures passed <==>
        t.tokenId in old(executionTokens) && !old(executionTokens)[t.tokenId].used && now < t.expiresAt &&
        t.intentHash == g.intentHash && t.actionHash == ActionHash(sha256, e) &&
        t.policyVersion == g.policyVersion && t.target == e.target
      ensures passed ==>
        executionTokens == old(executionTokens)[t.tokenId := old(executionTokens)[t.tokenId].(used := true)]
      ensures !passed ==> executionTokens == old(executionTokens)
      ensures executionTokens == AfterPreflight(sha256, old(executionTokens), t, e, g, now)
    {
      var stored := t.tokenId in executionTokens;
      checks := Checks(
        stored && !executionTokens[t.tokenId].used, now < t.expiresAt, t.intentHash == g.intentHash,
        t.actionHash == ActionHash(sha256, e), t.policyVersion == g.policyVersion, t.target == e.target);
      passed := checks.AllPass();
      if passed && stored {
        executionTokens := executionTokens[t.tokenId := executionTokens[t.tokenId].(used := true)];
      }
    }

    /** executeClosedLoop. */
    method ExecuteClosedLoop(r: Request)
      returns (outcome: Outcome, receipt: Option<Receipt>, entry: Option<FormalEntry>)
      requires Valid()
      modifies this
      ensures Valid()
      ensures (Snapshot(), outcome) == Run(sha256, old(Snapshot()), r)
      ensures outcome.Complete? ==> receipt == Some(ReceiptOf(sha256, r, outcome.custody))
      ensures outcome.Complete? ==> entry == Some(EntryOf(sha256, r, outcome.custody))
      ensures !outcome.Complete? ==> receipt.None? && entry.None?
    {
      receipt, entry := None, None;
      var f := r.inputs;
      var v := VerifyIntentEnvelope(r.envelope, r.options, f.verifyNow, f.cleanNow, f.verificationId);
      if !v.verified {
        return FailedVerification(v), None, None;
      }
      var g := Evaluate(r.envelope, v, r.meta, f.decisionId, f.governNow).value;
      if g.decision == RequireHumanApproval {
        if r.approval.None? {
          return FailedAuthorization(v, g, NoApproval), None, None;
        }
        var faults := ApprovalFaults(r.approval.value, g);
        if |faults| > 0 {
          return FailedAuthorization(v, g, Faulty(faults)), None, None;
        }
      }
      outcome := ExecuteAuthorized(r, v, g);
      if outcome.Complete? {
        receipt := Some(ReceiptOf(sha256, r, outcome.custody));
        entry := Some(EntryOf(sha256, r, outcome.custody));
      }
    }

    /** The part of the loop after authorization: token, gate and connector. */
    method ExecuteAuthorized(r: Request, v: VerificationResult, g: Governance) returns (outcome: Outcome)
      modifies this`executionTokens, this`connectorCalls
      ensures (Snapshot(), outcome) == CarryOut(sha256, old(Snapshot()), r, v, g)
    {
      var f := r.inputs;
      var t := IssueExecutionToken(r.envelope, g, DEFAULT_TOKEN_TTL_MS, f.issueNow, f.tokenId, f.tokenNonce);
      var passed, checks := ExecuteGatePreflight(t, r.envelope, g, f.gateNow);
      if !passed {
        return FailedGate(v, g, t, checks);
      }
      connectorCalls := connectorCalls + [r.envelope.parameters];
      var record := Custody(r.envelope, v, g, r.approval, executionTokens[f.tokenId], ResultOf(r.connector));
      outcome := Complete(record, checks);
    }
  }
}
