/** A1: the canonical intent envelope and its hash
    (legacy/one-app/server/controlPlane.ts). */
module Intents {
  import opened Hashing
  import opened Json
  import opened Wrappers

  // ---------------------------------------------------------------------
  // A1: the intent envelope
  // ---------------------------------------------------------------------

  /** A missing text field is the empty text; both are refused alike. */
  datatype Envelope = Envelope(
    intentId: string,
    requestId: string,
    sourceType: string,
    sourceId: string,
    actorId: string,
    timestamp: int,
    nonce: string,
    actionType: string,
    target: string,
    parameters: Value,
    context: Value,
    correlationId: Option<string>,
    policyVersionTarget: string,
    signature: Option<string>,
    metadata: Value
  )

  const ENVELOPE_FIELDS := [
    "intent_id", "request_id", "source_type", "source_id", "actor_id", "timestamp", "nonce", "action_type",
    "target", "parameters", "context", "correlation_id", "policy_version_target", "signature", "metadata" ]

  function EnvelopeValues(e: Envelope): seq<Value> {
    [ String(e.intentId), String(e.requestId), String(e.sourceType), String(e.sourceId), String(e.actorId),
      Integer(e.timestamp), String(e.nonce), String(e.actionType), String(e.target), e.parameters, e.context,
      OrNull(e.correlationId), String(e.policyVersionTarget), OrNull(e.signature), e.metadata ]
  }

  function HashEnvelope(h: Hash, e: Envelope): string {
    h(Stringify(Record(ENVELOPE_FIELDS, EnvelopeValues(e))))
  }

  lemma EnvelopeFieldsDistinct()
    ensures Distinct(ENVELOPE_FIELDS)
  {
  }

  /** Equal up to key order inside the free-form parts. */
  ghost predicate SameEnvelope(e: Envelope, f: Envelope) {
    e == f.(parameters := e.parameters, context := e.context, metadata := e.metadata) &&
    Denote(e.parameters) == Denote(f.parameters) && Denote(e.context) == Denote(f.context) &&
    Denote(e.metadata) == Denote(f.metadata)
  }

  lemma HashBindsEnvelope(h: Hash, e: Envelope, f: Envelope)
    requires CollisionFree(h) && HashEnvelope(h, e) == HashEnvelope(h, f)
    ensures SameEnvelope(e, f)
  {
    var vs, ws := EnvelopeValues(e), EnvelopeValues(f);
    EnvelopeFieldsDistinct();
    RecordBinds(ENVELOPE_FIELDS, vs, ws);
    IdentityFields(e, f);
    ActionFields(e, f);
    OptionalFields(e, f);
  }

  lemma IdentityFields(e: Envelope, f: Envelope)
    requires AllAgree(EnvelopeValues(e), EnvelopeValues(f))
    ensures e.intentId == f.intentId && e.requestId == f.requestId && e.sourceType == f.sourceType
    ensures e.sourceId == f.sourceId && e.actorId == f.actorId
  {
    var vs, ws := EnvelopeValues(e), EnvelopeValues(f);
    assert Agree(vs, ws, 0) && Agree(vs, ws, 1) && Agree(vs, ws, 2) && Agree(vs, ws, 3) && Agree(vs, ws, 4);
  }

  lemma ActionFields(e: Envelope, f: Envelope)
    requires AllAgree(EnvelopeValues(e), EnvelopeValues(f))
    ensures e.timestamp == f.timestamp && e.nonce == f.nonce
    ensures e.actionType == f.actionType && e.target == f.target
    ensures Denote(e.parameters) == Denote(f.parameters)
  {
    var vs, ws := EnvelopeValues(e), EnvelopeValues(f);
    assert Agree(vs, ws, 5) && Agree(vs, ws, 6) && Agree(vs, ws, 7) && Agree(vs, ws, 8) && Agree(vs, ws, 9);
    DecimalInjective(e.timestamp, f.timestamp);
  }

  lemma OptionalFields(e: Envelope, f: Envelope)
    requires AllAgree(EnvelopeValues(e), EnvelopeValues(f))
    ensures Denote(e.context) == Denote(f.context) && Denote(e.metadata) == Denote(f.metadata)
    ensures e.correlationId == f.correlationId && e.signature == f.signature
    ensures e.policyVersionTarget == f.policyVersionTarget
  {
    var vs, ws := EnvelopeValues(e), EnvelopeValues(f);
    assert Agree(vs, ws, 10) && Agree(vs, ws, 11) && Agree(vs, ws, 12) && Agree(vs, ws, 13) && Agree(vs, ws, 14);
  }
}
