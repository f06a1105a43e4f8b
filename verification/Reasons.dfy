/** The texts of failure reasons, and that no two reasons share one
    (legacy/one-app/server/controlPlane.ts). */
module Reasons {
  import opened Json
  import opened Verification
  import opened Gate

  function FieldText(f: Field): string {
    match f
    case IntentId => "intent_id"
    case RequestId => "request_id"
    case SourceType => "source_type"
    case SourceId => "source_id"
    case ActorId => "actor_id"
    case Timestamp => "timestamp"
    case Nonce => "nonce"
    case ActionType => "action_type"
    case Target => "target"
    case Parameters => "parameters"
  }

  const MISSING := "Missing or empty required field: "
  const NOT_OBJECT := "parameters must be a non-null object"
  const BAD_SOURCE := "Invalid source_type: "
  const UNKNOWN_ACTOR := "Unknown actor_id: "
  const NO_SIGNATURE := "Signature required but missing or too short"
  const EXPIRED := "Intent expired: age="
  const TTL := "ms, TTL="
  const NO_NONCE := "Nonce is missing or empty"
  const REPLAY := "Replay detected: nonce "
  const USED := " already used"

  function FailureText(f: Failure): string {
    match f
    case EmptyField(field) => MISSING + FieldText(field)
    case ParametersNotObject => NOT_OBJECT
    case InvalidSourceType(t) => BAD_SOURCE + t
    case UnknownActor(id) => UNKNOWN_ACTOR + id
    case SignatureMissing => NO_SIGNATURE
    case IntentExpired(age) => EXPIRED + (Decimal(age) + (TTL + Decimal(INTENT_TTL_MS) + "ms"))
    case NonceMissing => NO_NONCE
    case ReplayDetected(nonce) => REPLAY + (nonce + USED)
  }

  function ReasonText(r: RiskReason): string {
    match r
    case AutoApproved => "LOW risk — auto-approved by policy"
    case NeedsApproval => "MEDIUM risk — requires human approval"
    case NeedsExplicitAuthorization => "HIGH risk — requires explicit human authorization"
  }

  function DecisionText(d: Decision): string {
    match d
    case Approve => "APPROVE"
    case Deny => "DENY"
    case RequireHumanApproval => "REQUIRE_HUMAN_APPROVAL"
  }

  // ---------------------------------------------------------------------
  // No two share a text
  // ---------------------------------------------------------------------

  lemma PrefixCancels(p: string, a: string, b: string)
    requires p + a == p + b
    ensures a == b
  {
    assert a == (p + a)[|p|..] && b == (p + b)[|p|..];
  }

  lemma SuffixCancels(a: string, b: string, s: string)
    requires a + s == b + s
    ensures a == b
  {
    assert |a| == |b|;
    assert a == (a + s)[..|a|] && b == (b + s)[..|b|];
  }

  /** Length and first letter tell the fields apart. */
  function FieldMark(f: Field): (nat, char) {
    match f
    case IntentId => (9, 'i')
    case RequestId => (10, 'r')
    case SourceType => (11, 's')
    case SourceId => (9, 's')
    case ActorId => (8, 'a')
    case Timestamp => (9, 't')
    case Nonce => (5, 'n')
    case ActionType => (11, 'a')
    case Target => (6, 't')
    case Parameters => (10, 'p')
  }

  lemma FieldHasMark(f: Field)
    ensures |FieldText(f)| == FieldMark(f).0 && FieldText(f)[0] == FieldMark(f).1
  {
  }

  lemma MarkTellsField(f: Field, g: Field)
    requires FieldMark(f) == FieldMark(g)
    ensures f == g
  {
  }

  lemma FieldTextBinds(f: Field, g: Field)
    requires FieldText(f) == FieldText(g)
    ensures f == g
  {
    FieldHasMark(f);
    FieldHasMark(g);
    MarkTellsField(f, g);
  }

  /** First and third letter tell the kinds of failure apart. */
  function FailureMark(f: Failure): (char, char) {
    match f
    case EmptyField(_) => ('M', 's')
    case ParametersNotObject => ('p', 'r')
    case InvalidSourceType(_) => ('I', 'v')
    case UnknownActor(_) => ('U', 'k')
    case SignatureMissing => ('S', 'g')
    case IntentExpired(_) => ('I', 't')
    case NonceMissing => ('N', 'n')
    case ReplayDetected(_) => ('R', 'p')
  }

  lemma FailureHasMark(f: Failure)
    ensures |FailureText(f)| > 2 && FailureText(f)[0] == FailureMark(f).0 && FailureText(f)[2] == FailureMark(f).1
  {
  }

  lemma FailureTextBinds(f: Failure, g: Failure)
    requires FailureText(f) == FailureText(g)
    ensures f == g
  {
    FailureHasMark(f);
    FailureHasMark(g);
    match f
    case EmptyField(field) =>
      PrefixCancels(MISSING, FieldText(field), FieldText(g.field));
      FieldTextBinds(field, g.field);
    case ParametersNotObject =>
    case InvalidSourceType(t) => PrefixCancels(BAD_SOURCE, t, g.sourceType);
    case UnknownActor(id) => PrefixCancels(UNKNOWN_ACTOR, id, g.actorId);
    case SignatureMissing =>
    case IntentExpired(age) => ExpiredTextBinds(age, g.age);
    case NonceMissing =>
    case ReplayDetected(nonce) =>
      PrefixCancels(REPLAY, nonce + USED, g.nonce + USED);
      SuffixCancels(nonce, g.nonce, USED);
  }

  lemma ExpiredTextBinds(a: int, b: int)
    requires FailureText(IntentExpired(a)) == FailureText(IntentExpired(b))
    ensures a == b
  {
    var rest := TTL + Decimal(INTENT_TTL_MS) + "ms";
    PrefixCancels(EXPIRED, Decimal(a) + rest, Decimal(b) + rest);
    SuffixCancels(Decimal(a), Decimal(b), rest);
    DecimalInjective(a, b);
  }

  function FailureTexts(fs: seq<Failure>): Value {
    Array(seq(|fs|, i requires 0 <= i < |fs| => String(FailureText(fs[i]))))
  }

  lemma FailureTextsBind(fs: seq<Failure>, gs: seq<Failure>)
    requires Denote(FailureTexts(fs)) == Denote(FailureTexts(gs))
    ensures fs == gs
  {
    var xs, ys := FailureTexts(fs).items, FailureTexts(gs).items;
    ArraysAgree(xs, ys);
    forall i | 0 <= i < |fs| ensures fs[i] == gs[i] {
      assert Denote(xs[i]) == Denote(ys[i]);
      TextsAgree(FailureText(fs[i]), FailureText(gs[i]));
      FailureTextBinds(fs[i], gs[i]);
    }
  }

  lemma ReasonTextBinds(r: RiskReason, s: RiskReason)
    requires ReasonText(r) == ReasonText(s)
    ensures r == s
  {
    assert ReasonText(r)[0] == ReasonText(s)[0];
  }

  lemma DecisionTextBinds(d: Decision, e: Decision)
    requires DecisionText(d) == DecisionText(e)
    ensures d == e
  {
    assert DecisionText(d)[0] == DecisionText(e)[0];
  }
}
