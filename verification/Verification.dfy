/** A2: envelope verification with a replay cache that forgets
    (legacy/one-app/server/controlPlane.ts). Clock reads and fresh ids are inputs. */
module Verification {
  import opened Hashing
  import opened Json
  import opened Wrappers
  import opened Intents

  const NONCE_TTL_MS := 10 * 60 * 1000
  const INTENT_TTL_MS := 5 * 60 * 1000

  datatype Options = Options(requireSignature: bool, knownActorIds: Option<seq<string>>)

  datatype Field =
    | IntentId | RequestId | SourceType | SourceId | ActorId | Timestamp | Nonce | ActionType | Target | Parameters

  datatype Failure =
    | EmptyField(field: Field)
    | ParametersNotObject
    | InvalidSourceType(sourceType: string)
    | UnknownActor(actorId: string)
    | SignatureMissing
    | IntentExpired(age: int)
    | NonceMissing
    | ReplayDetected(nonce: string)

  datatype VerificationResult = VerificationResult(
    verificationId: string,
    intentHash: string,
    schemaValid: bool,
    authValid: bool,
    signatureValid: bool,
    ttlValid: bool,
    nonceValid: bool,
    replayCheck: bool,
    verified: bool,
    failureReasons: seq<Failure>,
    timestamp: int
  )

  /** The required fields, in the order they are checked, with whether each is empty. */
  function RequiredFields(e: Envelope): seq<(Field, bool)> {
    [ (IntentId, |e.intentId| == 0), (RequestId, |e.requestId| == 0), (SourceType, |e.sourceType| == 0),
      (SourceId, |e.sourceId| == 0), (ActorId, |e.actorId| == 0), (Timestamp, false), (Nonce, |e.nonce| == 0),
      (ActionType, |e.actionType| == 0), (Target, |e.target| == 0), (Parameters, EmptyParameters(e)) ]
  }

  predicate EmptyParameters(e: Envelope) {
    e.parameters.Null? || (e.parameters.String? && |e.parameters.s| == 0)
  }

  predicate FieldsPresent(e: Envelope) {
    |e.intentId| > 0 && |e.requestId| > 0 && |e.sourceType| > 0 && |e.sourceId| > 0 && |e.actorId| > 0 &&
    |e.nonce| > 0 && |e.actionType| > 0 && |e.target| > 0 && !EmptyParameters(e)
  }

  predicate KnownSourceType(t: string) {
    t == "HUMAN" || t == "AI_AGENT" || t == "SYSTEM" || t == "API"
  }

  predicate ObjectParameters(e: Envelope) {
    e.parameters.Object? || e.parameters.Array?
  }

  predicate SchemaValid(e: Envelope) {
    FieldsPresent(e) && ObjectParameters(e) && KnownSourceType(e.sourceType)
  }

  predicate AuthValid(e: Envelope, o: Options) {
    o.knownActorIds.None? || e.actorId in o.knownActorIds.value
  }

  predicate SignatureValid(e: Envelope, o: Options) {
    o.requireSignature ==> e.signature.Some? && |e.signature.value| >= 10
  }

  predicate TtlValid(e: Envelope, now: int) {
    0 <= now - e.timestamp <= INTENT_TTL_MS
  }

  function EmptyFields(fields: seq<(Field, bool)>): seq<Failure> {
    if |fields| == 0 then []
    else
      var last := fields[|fields| - 1];
      EmptyFields(fields[..|fields| - 1]) + (if last.1 then [EmptyField(last.0)] else [])
  }

  function PushIf(failures: seq<Failure>, bad: bool, f: Failure): seq<Failure> {
    if bad then failures + [f] else failures
  }

  function SchemaFailures(e: Envelope): seq<Failure> {
    var empty := EmptyFields(RequiredFields(e));
    var shaped := PushIf(empty, !ObjectParameters(e), ParametersNotObject);
    PushIf(shaped, !KnownSourceType(e.sourceType), InvalidSourceType(e.sourceType))
  }

  /** The failure list, in the order the checks push onto it. */
  function Failures(e: Envelope, o: Options, now: int, seen: bool): seq<Failure> {
    var auth := PushIf(SchemaFailures(e), !AuthValid(e, o), UnknownActor(e.actorId));
    var signature := PushIf(auth, !SignatureValid(e, o), SignatureMissing);
    var ttl := PushIf(signature, !TtlValid(e, now), IntentExpired(now - e.timestamp));
    var nonce := PushIf(ttl, |e.nonce| == 0, NonceMissing);
    PushIf(nonce, seen, ReplayDetected(e.nonce))
  }

  // ---------------------------------------------------------------------
  // The replay cache: nonce -> time it was first seen
  // ---------------------------------------------------------------------

  type Cache = map<string, int>

  /** cleanExpiredNonces. */
  function Purge(cache: Cache, now: int): Cache {
    map n | n in cache && now - cache[n] <= NONCE_TTL_MS :: cache[n]
  }

  function Verify(h: Hash, cache: Cache, e: Envelope, o: Options, now: int, cleanNow: int, id: string)
    : (r: VerificationResult)
  {
    var seen := e.nonce in Purge(cache, cleanNow);
    VerificationResult(
      id, HashEnvelope(h, e), SchemaValid(e), AuthValid(e, o), SignatureValid(e, o), TtlValid(e, now),
      |e.nonce| > 0, !seen,
      SchemaValid(e) && AuthValid(e, o) && SignatureValid(e, o) && TtlValid(e, now) && |e.nonce| > 0 && !seen,
      Failures(e, o, now, seen), now)
  }

  /** The cache after a verification: the nonce is recorded whatever the verdict. */
  function Remember(cache: Cache, e: Envelope, now: int, cleanNow: int): Cache {
    var kept := Purge(cache, cleanNow);
    if e.nonce in kept || |e.nonce| == 0 then kept else kept[e.nonce := now]
  }

  /** After a call the cache holds the nonces of the last ten minutes, with the times they were
      first seen, and this call's own unless it is empty. */
  lemma RememberedIff(cache: Cache, e: Envelope, now: int, cleanNow: int, n: string)
    ensures var kept := n in cache && cleanNow - cache[n] <= 600_000;
      var after := Remember(cache, e, now, cleanNow);
      (n in after <==> kept || (n == e.nonce && n != "")) && (n in after ==> after[n] == if kept then cache[n] else now)
  {
    assert n in Purge(cache, cleanNow) <==> n in cache && cleanNow - cache[n] <= 600_000;
  }

  lemma {:induction false} NoEmptyFields(fields: seq<(Field, bool)>)
    ensures |EmptyFields(fields)| == 0 <==> forall i | 0 <= i < |fields| :: !fields[i].1
  {
    if |fields| > 0 {
      NoEmptyFields(fields[..|fields| - 1]);
    }
  }

  lemma NoMissingField(e: Envelope)
    ensures |EmptyFields(RequiredFields(e))| == 0 <==> FieldsPresent(e)
  {
    var fs := RequiredFields(e);
    NoEmptyFields(fs);
    assert FieldsPresent(e) <==>
      !fs[0].1 && !fs[1].1 && !fs[2].1 && !fs[3].1 && !fs[4].1 && !fs[6].1 && !fs[7].1 && !fs[8].1 && !fs[9].1;
  }

  /** The answer, from the fields and the clock alone: complete, shaped and of a known source;
      by a known actor, if a list is given; signed with ten characters, if that is asked for;
      at most five minutes old and not ahead of the clock; and its nonce not seen in the last
      ten minutes. */
  lemma VerifiedIff(h: Hash, cache: Cache, e: Envelope, o: Options, now: int, cleanNow: int, id: string)
    ensures Verify(h, cache, e, o, now, cleanNow, id).verified <==>
      (e.intentId != "" && e.requestId != "" && e.sourceId != "" && e.actorId != "" && e.nonce != "" &&
       e.actionType != "" && e.target != "" && (e.parameters.Object? || e.parameters.Array?) &&
       (e.sourceType == "HUMAN" || e.sourceType == "AI_AGENT" || e.sourceType == "SYSTEM" || e.sourceType == "API") &&
       (o.knownActorIds.Some? ==> e.actorId in o.knownActorIds.value) &&
       (o.requireSignature ==> e.signature.Some? && |e.signature.value| >= 10) &&
       0 <= now - e.timestamp <= 300_000 &&
       (e.nonce !in cache || cleanNow - cache[e.nonce] > 600_000))
  {
    KnownSourceIsText(e);
  }

  lemma KnownSourceIsText(e: Envelope)
    ensures KnownSourceType(e.sourceType) ==> |e.sourceType| > 0
  {
  }

  /** What each flag of the result says, whatever the others do. */
  lemma FlagsIff(h: Hash, cache: Cache, e: Envelope, o: Options, now: int, cleanNow: int, id: string)
    ensures var r := Verify(h, cache, e, o, now, cleanNow, id);
      r.verificationId == id && r.intentHash == HashEnvelope(h, e) && r.timestamp == now &&
      (r.authValid <==> o.knownActorIds.None? || e.actorId in o.knownActorIds.value) &&
      (r.signatureValid <==> !o.requireSignature || (e.signature.Some? && |e.signature.value| >= 10)) &&
      (r.ttlValid <==> e.timestamp <= now <= e.timestamp + 300_000) && (r.nonceValid <==> e.nonce != "") &&
      (r.replayCheck <==> e.nonce !in cache || cleanNow - cache[e.nonce] > 600_000)
  {
  }

  lemma InPushIf(fs: seq<Failure>, bad: bool, g: Failure, f: Failure)
    ensures f in PushIf(fs, bad, g) <==> f in fs || (bad && f == g)
  {
  }

  lemma {:induction false} InEmptyFields(fields: seq<(Field, bool)>, f: Failure)
    ensures f in EmptyFields(fields) <==> exists i :: 0 <= i < |fields| && fields[i].1 && f == EmptyField(fields[i].0)
  {
    if |fields| > 0 {
      InEmptyFields(fields[..|fields| - 1], f);
    }
  }

  function Place(field: Field): (i: nat)
    ensures i < 10
  {
    match field
    case IntentId => 0
    case RequestId => 1
    case SourceType => 2
    case SourceId => 3
    case ActorId => 4
    case Timestamp => 5
    case Nonce => 6
    case ActionType => 7
    case Target => 8
    case Parameters => 9
  }

  lemma OnlyPlace(e: Envelope, field: Field)
    ensures |RequiredFields(e)| == 10 && RequiredFields(e)[Place(field)].0 == field
    ensures forall i | 0 <= i < 10 && RequiredFields(e)[i].0 == field :: i == Place(field)
  {
    var fs := RequiredFields(e);
    assert forall i | 0 <= i < 10 :: Place(fs[i].0) == i;
  }

  /** Exactly which reasons are reported. */
  lemma ReportedIff(e: Envelope, o: Options, now: int, seen: bool, f: Failure)
    requires !f.EmptyField?
    ensures f in Failures(e, o, now, seen) <==>
      match f
      case EmptyField(_) => false
      case ParametersNotObject => !e.parameters.Object? && !e.parameters.Array?
      case InvalidSourceType(t) => t == e.sourceType && t !in ["HUMAN", "AI_AGENT", "SYSTEM", "API"]
      case UnknownActor(a) => a == e.actorId && o.knownActorIds.Some? && a !in o.knownActorIds.value
      case SignatureMissing => o.requireSignature && (e.signature.None? || |e.signature.value| < 10)
      case IntentExpired(age) => age == now - e.timestamp && (age < 0 || age > 300_000)
      case NonceMissing => e.nonce == ""
      case ReplayDetected(n) => n == e.nonce && seen
  {
    InEmptyFields(RequiredFields(e), f);
    InFailures(e, o, now, seen, f);
  }

  lemma InFailures(e: Envelope, o: Options, now: int, seen: bool, f: Failure)
    ensures f in Failures(e, o, now, seen) <==>
      f in EmptyFields(RequiredFields(e)) || (!ObjectParameters(e) && f == ParametersNotObject) ||
      (!KnownSourceType(e.sourceType) && f == InvalidSourceType(e.sourceType)) ||
      (!AuthValid(e, o) && f == UnknownActor(e.actorId)) || (!SignatureValid(e, o) && f == SignatureMissing) ||
      (!TtlValid(e, now) && f == IntentExpired(now - e.timestamp)) || (|e.nonce| == 0 && f == NonceMissing) ||
      (seen && f == ReplayDetected(e.nonce))
  {
  }

  /** Exactly which required fields are reported as missing or empty. */
  lemma EmptyReportedIff(e: Envelope, o: Options, now: int, seen: bool, field: Field)
    ensures EmptyField(field) in Failures(e, o, now, seen) <==>
      match field
      case IntentId => e.intentId == ""
      case RequestId => e.requestId == ""
      case SourceType => e.sourceType == ""
      case SourceId => e.sourceId == ""
      case ActorId => e.actorId == ""
      case Timestamp => false
      case Nonce => e.nonce == ""
      case ActionType => e.actionType == ""
      case Target => e.target == ""
      case Parameters => e.parameters == Null || e.parameters == String("")
  {
    var fs := RequiredFields(e);
    InFailures(e, o, now, seen, EmptyField(field));
    InEmptyFields(fs, EmptyField(field));
    OnlyPlace(e, field);
    assert EmptyField(field) in EmptyFields(fs) <==> fs[Place(field)].1;
  }

  /** An envelope is verified exactly when no failure is reported: what the flags say and
      what the reasons say never disagree. */
  lemma VerifiedIffNoFailure(h: Hash, cache: Cache, e: Envelope, o: Options, now: int, cleanNow: int, id: string)
    ensures var r := Verify(h, cache, e, o, now, cleanNow, id); r.verified <==> |r.failureReasons| == 0
  {
    NoMissingField(e);
  }

  // ---------------------------------------------------------------------
  // Runs
  // ---------------------------------------------------------------------

  datatype Call = Call(e: Envelope, o: Options, now: int, cleanNow: int, id: string)

  ghost function CacheAfter(calls: seq<Call>, n: nat): Cache
    requires n <= |calls|
  {
    if n == 0 then map[]
    else Remember(CacheAfter(calls, n - 1), calls[n - 1].e, calls[n - 1].now, calls[n - 1].cleanNow)
  }

  ghost function ResultAt(h: Hash, calls: seq<Call>, n: nat): VerificationResult
    requires n < |calls|
  {
    Verify(h, CacheAfter(calls, n), calls[n].e, calls[n].o, calls[n].now, calls[n].cleanNow, calls[n].id)
  }

  /** Time does not run backwards, and the two reads inside a call are at most slack apart. */
  ghost predicate ClockWithin(calls: seq<Call>, slack: int) {
    (forall i | 0 <= i < |calls| :: calls[i].now <= calls[i].cleanNow <= calls[i].now + slack) &&
    forall i, j | 0 <= i < j < |calls| :: calls[i].cleanNow <= calls[j].now
  }

  /** The nonce was not in the cache when call i looked, so call i recorded it. */
  ghost predicate RecordedAt(calls: seq<Call>, i: nat)
    requires i < |calls|
  {
    |calls[i].e.nonce| > 0 && calls[i].e.nonce !in Purge(CacheAfter(calls, i), calls[i].cleanNow)
  }

  lemma {:induction false} RememberedOrLate(calls: seq<Call>, i: nat, n: nat, slack: int)
    requires i < n <= |calls| && ClockWithin(calls, slack) && RecordedAt(calls, i)
    ensures var c, nonce := CacheAfter(calls, n), calls[i].e.nonce;
      (nonce in c && c[nonce] >= calls[i].now) || calls[n - 1].cleanNow - calls[i].now > NONCE_TTL_MS
  {
    if n > i + 1 {
      RememberedOrLate(calls, i, n - 1, slack);
      assert calls[n - 2].cleanNow <= calls[n - 1].now <= calls[n - 1].cleanNow;
    }
  }

  /** Once a nonce is recorded, no envelope with that nonce and a timestamp no later than
      that moment is verified again, although the cache forgets: by the time the nonce is
      purged the envelope is too old. The two clock reads of a call may be up to
      NONCE_TTL_MS - INTENT_TTL_MS apart. */
  lemma RecordedNonceNeverVerifies(h: Hash, calls: seq<Call>, i: nat, j: nat)
    requires i < j < |calls| && ClockWithin(calls, NONCE_TTL_MS - INTENT_TTL_MS) && RecordedAt(calls, i)
    requires calls[j].e.nonce == calls[i].e.nonce && calls[j].e.timestamp <= calls[i].now
    ensures !ResultAt(h, calls, j).verified
  {
    RememberedOrLate(calls, i, j, NONCE_TTL_MS - INTENT_TTL_MS);
    assert calls[j - 1].cleanNow <= calls[j].now || j - 1 == i;
  }

  /** The same envelope is verified at most once in any run. */
  lemma VerifiedAtMostOnce(h: Hash, calls: seq<Call>, i: nat, j: nat)
    requires i < j < |calls| && ClockWithin(calls, NONCE_TTL_MS - INTENT_TTL_MS)
    requires calls[j].e == calls[i].e
    ensures !(ResultAt(h, calls, i).verified && ResultAt(h, calls, j).verified)
  {
    if ResultAt(h, calls, i).verified {
      RecordedNonceNeverVerifies(h, calls, i, j);
    }
  }

  /** The allowance is exact: with any larger slack there is a run that verifies one
      envelope twice. */
  lemma LargerSlackVerifiesTwice(h: Hash, slack: int, e: Envelope, o: Options) returns (calls: seq<Call>)
    requires slack > NONCE_TTL_MS - INTENT_TTL_MS
    requires Verify(h, map[], e, o, e.timestamp, e.timestamp, "").verified
    ensures |calls| == 2 && ClockWithin(calls, slack) && calls[0].e == calls[1].e == e
    ensures ResultAt(h, calls, 0).verified && ResultAt(h, calls, 1).verified
  {
    var t := e.timestamp;
    calls := [Call(e, o, t, t, ""), Call(e, o, t + INTENT_TTL_MS, t + INTENT_TTL_MS + slack, "")];
    assert CacheAfter(calls, 0) == map[];
    assert CacheAfter(calls, 1) == map[e.nonce := t];
    assert ClockWithin(calls, slack);
    assert Purge(CacheAfter(calls, 1), calls[1].cleanNow) == map[];
    assert ResultAt(h, calls, 0).verified && ResultAt(h, calls, 1).verified;
  }
}
