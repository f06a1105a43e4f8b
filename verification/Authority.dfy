/** The authority layer: signed policies and authorization tokens
    (legacy/one-app/server/authorityLayer.ts). Clock reads and fresh ids are inputs.

    A caller presents a token by value. Presenting the stored object is presenting a
    value equal to what the store holds at that moment; a copy may be out of date. */
module Authority {
  import opened Hashing
  import opened Json
  import opened Wrappers

  // ---------------------------------------------------------------------
  // Policies
  // ---------------------------------------------------------------------

  datatype Rules = Rules(
    proposerCannotApprove: bool,
    highRiskRequiresApproval: bool,
    approvalExpiryMinutes: int,
    maxExecutionsPerApproval: int,
    ledgerRequired: bool,
    receiptRequired: bool,
    failClosed: bool
  )

  const RULE_FIELDS := [
    "proposer_cannot_approve", "high_risk_requires_approval", "approval_expiry_minutes",
    "max_executions_per_approval", "ledger_required", "receipt_required", "fail_closed" ]

  function RulesValues(r: Rules): seq<Value> {
    [ Bool(r.proposerCannotApprove), Bool(r.highRiskRequiresApproval), Integer(r.approvalExpiryMinutes),
      Integer(r.maxExecutionsPerApproval), Bool(r.ledgerRequired), Bool(r.receiptRequired), Bool(r.failClosed) ]
  }

  function RulesJson(r: Rules): Value {
    Record(RULE_FIELDS, RulesValues(r))
  }

  const POLICY_FIELDS := ["policy_id", "rules"]

  function PolicyValues(id: string, rules: Rules): seq<Value> {
    [String(id), RulesJson(rules)]
  }

  function PolicyHash(h: Hash, id: string, rules: Rules): string {
    h(Stringify(Record(POLICY_FIELDS, PolicyValues(id, rules))))
  }

  lemma PolicyFieldsDistinct()
    ensures Distinct(POLICY_FIELDS) && Distinct(RULE_FIELDS)
  {
    assert |POLICY_FIELDS[0]| != |POLICY_FIELDS[1]|;
  }

  /** One policy hash, one policy: the same id and the same rules. */
  lemma PolicyHashBinds(h: Hash, a: string, r: Rules, b: string, q: Rules)
    requires CollisionFree(h) && PolicyHash(h, a, r) == PolicyHash(h, b, q)
    ensures a == b && r == q
  {
    PolicyFieldsDistinct();
    RecordBinds(POLICY_FIELDS, PolicyValues(a, r), PolicyValues(b, q));
    SamePolicy(a, r, b, q);
    RecordMeaningBinds(RULE_FIELDS, RulesValues(r), RulesValues(q));
    SameRules(r, q);
  }

  lemma SamePolicy(a: string, r: Rules, b: string, q: Rules)
    requires AllAgree(PolicyValues(a, r), PolicyValues(b, q))
    ensures a == b && Denote(RulesJson(r)) == Denote(RulesJson(q))
  {
    var vs, ws := PolicyValues(a, r), PolicyValues(b, q);
    assert Agree(vs, ws, 0) && Agree(vs, ws, 1);
    assert vs[0] == String(a) && ws[0] == String(b);
    TextsAgree(a, b);
  }

  lemma SameRules(r: Rules, q: Rules)
    requires AllAgree(RulesValues(r), RulesValues(q))
    ensures r == q
  {
    var vs, ws := RulesValues(r), RulesValues(q);
    assert Agree(vs, ws, 0) && Agree(vs, ws, 1) && Agree(vs, ws, 2) && Agree(vs, ws, 3);
    assert Agree(vs, ws, 4) && Agree(vs, ws, 5) && Agree(vs, ws, 6);
    IntegersAgree(r.approvalExpiryMinutes, q.approvalExpiryMinutes);
    IntegersAgree(r.maxExecutionsPerApproval, q.maxExecutionsPerApproval);
  }

  datatype Policy = Policy(policyId: string, policyHash: string, signature: string, rootPublicKey: string,
                           rules: Rules, activatedAt: int)

  /** verifyRootSignature: a structural check, 128 hexadecimal digits or at least 64 characters. */
  predicate RootSigned(signature: string, rootPublicKey: string) {
    |rootPublicKey| > 0 && |signature| >= 64
  }

  function NewPolicy(h: Hash, id: string, rules: Rules, signature: string, key: string, now: int): Policy {
    Policy(id, PolicyHash(h, id, rules), signature, key, rules, now)
  }

  // ---------------------------------------------------------------------
  // Tokens
  // ---------------------------------------------------------------------

  datatype Token = Token(
    tokenId: string,
    intentId: string,
    action: string,
    parametersHash: string,
    approvedBy: string,
    policyHash: string,
    issuedAt: int,
    expiresAt: int,
    maxExecutions: int,
    executionCount: int,
    signature: string
  )

  const PARAMETERS_FIELDS := ["action", "args"]

  function ParametersValues(action: string, args: Value): seq<Value> {
    [String(action), args]
  }

  function ParametersHash(h: Hash, action: string, args: Value): string {
    h(Stringify(Record(PARAMETERS_FIELDS, ParametersValues(action, args))))
  }

  lemma ParametersFieldsDistinct()
    ensures Distinct(PARAMETERS_FIELDS)
  {
    assert |PARAMETERS_FIELDS[0]| != |PARAMETERS_FIELDS[1]|;
  }

  lemma ParametersHashBinds(h: Hash, a: string, x: Value, b: string, y: Value)
    requires CollisionFree(h) && ParametersHash(h, a, x) == ParametersHash(h, b, y)
    ensures a == b && Denote(x) == Denote(y)
  {
    ParametersFieldsDistinct();
    RecordBinds(PARAMETERS_FIELDS, ParametersValues(a, x), ParametersValues(b, y));
    SameParameters(a, x, b, y);
  }

  lemma SameParameters(a: string, x: Value, b: string, y: Value)
    requires AllAgree(ParametersValues(a, x), ParametersValues(b, y))
    ensures a == b && Denote(x) == Denote(y)
  {
    var vs, ws := ParametersValues(a, x), ParametersValues(b, y);
    assert Agree(vs, ws, 0) && Agree(vs, ws, 1);
    assert vs[0] == String(a) && ws[0] == String(b);
    TextsAgree(a, b);
  }

  datatype Grant = Grant(intentId: string, action: string, args: Value, approvedBy: string, signature: string,
                         expiryMinutes: Option<int>, maxExecutions: Option<int>)

  function Or<T>(o: Option<T>, d: T): T {
    if o.Some? then o.value else d
  }

  function NewToken(h: Hash, p: Policy, g: Grant, id: string, now: int): Token {
    Token(id, g.intentId, g.action, ParametersHash(h, g.action, g.args), g.approvedBy, p.policyHash, now,
      now + Or(g.expiryMinutes, p.rules.approvalExpiryMinutes) * 60 * 1000,
      Or(g.maxExecutions, p.rules.maxExecutionsPerApproval), 0, g.signature)
  }

  datatype Checks = Checks(
    tokenExists: bool,
    tokenSignatureValid: bool,
    tokenNotExpired: bool,
    executionCountValid: bool,
    parametersHashMatch: bool,
    killSwitchOff: bool,
    policyHashMatch: bool
  ) {
    predicate AllPass() {
      tokenExists && tokenSignatureValid && tokenNotExpired && executionCountValid &&
      parametersHashMatch && killSwitchOff && policyHashMatch
    }
  }

  // ---------------------------------------------------------------------
  // The layer as a state machine
  // ---------------------------------------------------------------------

  datatype State = State(active: Option<Policy>, tokens: map<string, Token>)

  datatype Op =
    | Activate(policyId: string, rules: Rules, signature: string, rootPublicKey: string, at: int)
    | Revoke
    | Issue(id: string, grant: Grant, at: int)
    | Validate(presented: Token, action: string, args: Value, killSwitch: bool, at: int)
    | Burn(id: string)

  /** validateAuthorizationToken: existence comes from the store, the rest from what is presented. */
  function Validation(h: Hash, s: State, t: Token, action: string, args: Value, kill: bool, now: int): Checks {
    Checks(
      t.tokenId in s.tokens, |t.signature| >= 10, now < t.expiresAt, t.executionCount < t.maxExecutions,
      t.parametersHash == ParametersHash(h, action, args), !kill,
      s.active.Some? && t.policyHash == s.active.value.policyHash)
  }

  predicate Succeeds(h: Hash, s: State, op: Op) {
    match op
    case Activate(_, _, signature, key, _) => RootSigned(signature, key)
    case Revoke => s.active.Some?
    case Issue(_, _, _) => s.active.Some?
    case Validate(t, action, args, kill, now) => Validation(h, s, t, action, args, kill, now).AllPass()
    case Burn(id) => id in s.tokens
  }

  function Counted(t: Token): Token {
    t.(executionCount := t.executionCount + 1)
  }

  /** An operation that does not succeed changes nothing. */
  function Step(h: Hash, s: State, op: Op): State {
    if !Succeeds(h, s, op) then s
    else
      match op
      case Activate(id, rules, signature, key, now) => s.(active := Some(NewPolicy(h, id, rules, signature, key, now)))
      case Revoke => s.(active := None)
      case Issue(id, grant, now) => s.(tokens := s.tokens[id := NewToken(h, s.active.value, grant, id, now)])
      case Validate(t, _, _, _, _) =>
        if t.tokenId in s.tokens then s.(tokens := s.tokens[t.tokenId := Counted(s.tokens[t.tokenId])]) else s
      case Burn(id) => s.(tokens := s.tokens - {id})
  }

  ghost function StateAfter(h: Hash, ops: seq<Op>, n: nat): State
    requires n <= |ops|
  {
    if n == 0 then State(None, map[]) else Step(h, StateAfter(h, ops, n - 1), ops[n - 1])
  }

  /** Operation i is a validation of this token id, and it passes. */
  ghost predicate PassesAt(h: Hash, ops: seq<Op>, i: nat, id: string)
    requires i < |ops|
  {
    ops[i].Validate? && ops[i].presented.tokenId == id && Succeeds(h, StateAfter(h, ops, i), ops[i])
  }

  ghost function PassCount(h: Hash, ops: seq<Op>, n: nat, id: string): nat
    requires n <= |ops|
  {
    if n == 0 then 0 else PassCount(h, ops, n - 1, id) + (if PassesAt(h, ops, n - 1, id) then 1 else 0)
  }

  /** No token id is given out twice. */
  ghost predicate FreshIds(ops: seq<Op>) {
    forall i, j | 0 <= i < j < |ops| && ops[i].Issue? && ops[j].Issue? :: ops[i].id != ops[j].id
  }

  ghost predicate IssuedBefore(ops: seq<Op>, n: nat, id: string)
    requires n <= |ops|
  {
    exists k :: 0 <= k < n && ops[k].Issue? && ops[k].id == id
  }

  lemma {:induction false} UnknownBeforeIssue(h: Hash, ops: seq<Op>, n: nat, id: string)
    requires n <= |ops| && !IssuedBefore(ops, n, id)
    ensures id !in StateAfter(h, ops, n).tokens && PassCount(h, ops, n, id) == 0
  {
    if n > 0 {
      UnknownBeforeIssue(h, ops, n - 1, id);
    }
  }

  /** Whatever copies are presented, a stored token's count is the number of validations
      that passed for it. */
  lemma {:induction false} CountIsPasses(h: Hash, ops: seq<Op>, n: nat, id: string)
    requires n <= |ops| && FreshIds(ops) && id in StateAfter(h, ops, n).tokens
    ensures StateAfter(h, ops, n).tokens[id].executionCount == PassCount(h, ops, n, id)
    ensures StateAfter(h, ops, n).tokens[id].tokenId == id
  {
    if n > 0 {
      var before := StateAfter(h, ops, n - 1);
      if id in before.tokens {
        CountIsPasses(h, ops, n - 1, id);
        if ops[n - 1].Issue? && ops[n - 1].id == id {
          StoredWasIssued(h, ops, n - 1, id);
        }
      } else if !IssuedBefore(ops, n - 1, id) {
        UnknownBeforeIssue(h, ops, n - 1, id);
      }
    }
  }

  lemma StoredWasIssued(h: Hash, ops: seq<Op>, n: nat, id: string)
    requires n <= |ops| && id in StateAfter(h, ops, n).tokens
    ensures IssuedBefore(ops, n, id)
  {
    if !IssuedBefore(ops, n, id) {
      UnknownBeforeIssue(h, ops, n, id);
    }
  }

  /** Each validation presents the stored object if there is one. */
  ghost predicate PresentsStored(h: Hash, ops: seq<Op>) {
    forall i {:trigger StateAfter(h, ops, i)} | 0 <= i < |ops| && ops[i].Validate? ::
      var id, stored := ops[i].presented.tokenId, StateAfter(h, ops, i).tokens;
      id in stored ==> ops[i].presented == stored[id]
  }

  function Cap(max: int): int {
    if max < 0 then 0 else max
  }

  /** Operation k issues a token. */
  ghost predicate IssuesAt(h: Hash, ops: seq<Op>, k: nat)
    requires k < |ops|
  {
    ops[k].Issue? && StateAfter(h, ops, k).active.Some?
  }

  ghost function IssuedToken(h: Hash, ops: seq<Op>, k: nat): Token
    requires k < |ops| && IssuesAt(h, ops, k)
  {
    NewToken(h, StateAfter(h, ops, k).active.value, ops[k].grant, ops[k].id, ops[k].at)
  }

  lemma NotIssuedBefore(ops: seq<Op>, k: nat)
    requires FreshIds(ops) && k < |ops| && ops[k].Issue?
    ensures !IssuedBefore(ops, k, ops[k].id)
  {
  }

  /** The stored token differs from the issued one only in its count, which is its passes. */
  ghost predicate TracksIssue(h: Hash, ops: seq<Op>, k: nat, n: nat)
    requires k < n <= |ops| && IssuesAt(h, ops, k)
  {
    var id, tokens := ops[k].id, StateAfter(h, ops, n).tokens;
    id in tokens ==> tokens[id] == IssuedToken(h, ops, k).(executionCount := PassCount(h, ops, n, id))
  }

  lemma {:induction false} StoredTokenTracksIssue(h: Hash, ops: seq<Op>, k: nat, n: nat)
    requires FreshIds(ops) && k < n <= |ops| && IssuesAt(h, ops, k)
    ensures TracksIssue(h, ops, k, n)
  {
    var id := ops[k].id;
    if n == k + 1 {
      NotIssuedBefore(ops, k);
      UnknownBeforeIssue(h, ops, k, id);
    } else {
      StoredTokenTracksIssue(h, ops, k, n - 1);
      assert ops[n - 1].Issue? ==> ops[n - 1].id != id;
    }
  }

  /** On stored objects, a token issued for max executions passes at most max(0, max) times
      in the whole run, burned or not. */
  lemma {:induction false} PassesAtMostMax(h: Hash, ops: seq<Op>, k: nat, n: nat)
    requires FreshIds(ops) && PresentsStored(h, ops)
    requires k < n <= |ops| && IssuesAt(h, ops, k)
    ensures PassCount(h, ops, n, ops[k].id) <= Cap(IssuedToken(h, ops, k).maxExecutions)
  {
    var id := ops[k].id;
    if n == k + 1 {
      NotIssuedBefore(ops, k);
      UnknownBeforeIssue(h, ops, k, id);
    } else {
      PassesAtMostMax(h, ops, k, n - 1);
      StoredTokenTracksIssue(h, ops, k, n - 1);
    }
  }

  /** After a burn that found the token, no validation of its id passes. */
  lemma {:induction false} NothingPassesAfterBurn(h: Hash, ops: seq<Op>, b: nat, n: nat)
    requires FreshIds(ops) && b < n <= |ops| && ops[b].Burn? && Succeeds(h, StateAfter(h, ops, b), ops[b])
    ensures ops[b].id !in StateAfter(h, ops, n).tokens
    ensures PassCount(h, ops, n, ops[b].id) == PassCount(h, ops, b, ops[b].id)
  {
    var id := ops[b].id;
    if n > b + 1 {
      NothingPassesAfterBurn(h, ops, b, n - 1);
      StoredWasIssued(h, ops, b, id);
    }
  }

  /** What each pass guarantees: the token is stored, unexpired and below its limit, the kill
      switch is off, and both the action and the active policy are the ones it was issued for. */
  lemma PassMeans(h: Hash, ops: seq<Op>, k: nat, i: nat)
    requires CollisionFree(h) && FreshIds(ops) && k < i < |ops| && IssuesAt(h, ops, k)
    requires PassesAt(h, ops, i, ops[k].id) && PresentsStored(h, ops)
    ensures StateAfter(h, ops, i).active.Some?
    ensures StateAfter(h, ops, i).active.value.policyHash == StateAfter(h, ops, k).active.value.policyHash
    ensures ops[i].action == ops[k].grant.action && Denote(ops[i].args) == Denote(ops[k].grant.args)
    ensures ops[i].at < IssuedToken(h, ops, k).expiresAt && !ops[i].killSwitch
    ensures ops[k].id in StateAfter(h, ops, i).tokens
  {
    StoredTokenTracksIssue(h, ops, k, i);
    ParametersHashBinds(h, ops[i].action, ops[i].args, ops[k].grant.action, ops[k].grant.args);
  }

  /** The active policy is what some activation brought: with a root key and a signature of 64
      characters, and hashed from its own id and rules. */
  lemma {:induction false} ActivatedBy(h: Hash, ops: seq<Op>, n: nat) returns (a: nat)
    requires n <= |ops| && StateAfter(h, ops, n).active.Some?
    ensures a < n && ops[a].Activate? && |ops[a].rootPublicKey| > 0 && |ops[a].signature| >= 64
    ensures StateAfter(h, ops, n).active.value ==
            Policy(ops[a].policyId, PolicyHash(h, ops[a].policyId, ops[a].rules), ops[a].signature,
                   ops[a].rootPublicKey, ops[a].rules, ops[a].at)
  {
    if StateAfter(h, ops, n - 1).active == StateAfter(h, ops, n).active {
      a := ActivatedBy(h, ops, n - 1);
    } else {
      a := n - 1;
    }
  }

  /** After a revocation nothing passes, until a policy is activated. */
  lemma {:induction false} RevokedPassesNothing(h: Hash, ops: seq<Op>, m: nat, n: nat, id: string)
    requires m < n < |ops| && ops[m].Revoke? && forall i | m < i < n :: !ops[i].Activate?
    ensures StateAfter(h, ops, n).active == None && !PassesAt(h, ops, n, id)
    decreases n
  {
    if n > m + 1 {
      RevokedPassesNothing(h, ops, m, n - 1, id);
    }
  }

  /** A token passes under the very policy that it was issued under: the same id and rules. */
  lemma PassesUnderItsPolicy(h: Hash, ops: seq<Op>, k: nat, i: nat)
    requires CollisionFree(h) && FreshIds(ops) && k < i < |ops| && IssuesAt(h, ops, k)
    requires PassesAt(h, ops, i, ops[k].id) && PresentsStored(h, ops)
    ensures var p, q := StateAfter(h, ops, i).active, StateAfter(h, ops, k).active;
      p.Some? && q.Some? && p.value.policyId == q.value.policyId && p.value.rules == q.value.rules
  {
    PassMeans(h, ops, k, i);
    var a := ActivatedBy(h, ops, i);
    var b := ActivatedBy(h, ops, k);
    PolicyHashBinds(h, ops[a].policyId, ops[a].rules, ops[b].policyId, ops[b].rules);
  }

  /** What a token is issued with: the grant's own expiry and limit, or the policy's. */
  lemma IssuedWith(h: Hash, ops: seq<Op>, k: nat)
    requires k < |ops| && IssuesAt(h, ops, k)
    ensures var t, g, p, at := IssuedToken(h, ops, k), ops[k].grant, StateAfter(h, ops, k).active.value, ops[k].at;
      t.tokenId == ops[k].id && t.intentId == g.intentId && t.action == g.action && t.approvedBy == g.approvedBy &&
      t.parametersHash == ParametersHash(h, g.action, g.args) && t.policyHash == p.policyHash &&
      t.signature == g.signature && t.issuedAt == at && t.executionCount == 0 &&
      t.expiresAt ==
        at + 60_000 * (if g.expiryMinutes.Some? then g.expiryMinutes.value else p.rules.approvalExpiryMinutes) &&
      t.maxExecutions ==
        (if g.maxExecutions.Some? then g.maxExecutions.value else p.rules.maxExecutionsPerApproval)
  {
  }

  /** When a validation passes, from the presented object and the store. */
  lemma PassesIff(h: Hash, s: State, t: Token, action: string, args: Value, kill: bool, now: int)
    ensures Succeeds(h, s, Validate(t, action, args, kill, now)) <==>
      t.tokenId in s.tokens && |t.signature| >= 10 && now < t.expiresAt && t.executionCount < t.maxExecutions &&
      t.parametersHash == ParametersHash(h, action, args) && !kill && s.active.Some? &&
      t.policyHash == s.active.value.policyHash
  {
  }

  // ---------------------------------------------------------------------
  // When copies are presented
  // ---------------------------------------------------------------------

  /** The stored token that validation i is about is still below its own limit. */
  ghost predicate BelowStoredLimit(h: Hash, ops: seq<Op>, i: nat, id: string)
    requires i <= |ops|
  {
    var stored := StateAfter(h, ops, i).tokens;
    id in stored && stored[id].executionCount < stored[id].maxExecutions
  }

  /** Every validation of the id that passes finds the stored token below its limit. */
  ghost predicate PassesBelowLimit(h: Hash, ops: seq<Op>, n: nat, id: string)
    requires n <= |ops|
  {
    forall i | 0 <= i < n && PassesAt(h, ops, i, id) :: BelowStoredLimit(h, ops, i, id)
  }

  /** A pass found the stored token, with its count the passes so far and its limit the
      issued one. */
  lemma PassFindsStored(h: Hash, ops: seq<Op>, k: nat, i: nat)
    requires FreshIds(ops) && k < |ops| && i < |ops| && IssuesAt(h, ops, k) && PassesAt(h, ops, i, ops[k].id)
    ensures var stored := StateAfter(h, ops, i).tokens;
      ops[k].id in stored && stored[ops[k].id].executionCount == PassCount(h, ops, i, ops[k].id) &&
      stored[ops[k].id].maxExecutions == IssuedToken(h, ops, k).maxExecutions
  {
    CountIsPasses(h, ops, i, ops[k].id);
    if i <= k {
      NotIssuedBefore(ops, k);
      UnknownBeforeIssue(h, ops, i, ops[k].id);
    } else {
      StoredTokenTracksIssue(h, ops, k, i);
    }
  }

  lemma {:induction false} BelowLimitKeepsCap(h: Hash, ops: seq<Op>, k: nat, n: nat)
    requires FreshIds(ops) && k < |ops| && n <= |ops| && IssuesAt(h, ops, k)
    requires PassesBelowLimit(h, ops, n, ops[k].id)
    ensures PassCount(h, ops, n, ops[k].id) <= Cap(IssuedToken(h, ops, k).maxExecutions)
  {
    if n > 0 {
      BelowLimitKeepsCap(h, ops, k, n - 1);
      if PassesAt(h, ops, n - 1, ops[k].id) {
        PassFindsStored(h, ops, k, n - 1);
        assert BelowStoredLimit(h, ops, n - 1, ops[k].id);
      }
    }
  }

  /** Whatever is presented, the limit holds throughout a run if and only if each validation
      that passes finds the stored token below it. Presenting the stored object is one way
      to make sure; the code does not ask for it. */
  lemma LimitHoldsIff(h: Hash, ops: seq<Op>, k: nat)
    requires FreshIds(ops) && k < |ops| && IssuesAt(h, ops, k)
    ensures var max := IssuedToken(h, ops, k).maxExecutions;
      (forall n | 0 <= n <= |ops| :: PassCount(h, ops, n, ops[k].id) <= Cap(max)) <==>
      PassesBelowLimit(h, ops, |ops|, ops[k].id)
  {
    var id, max := ops[k].id, IssuedToken(h, ops, k).maxExecutions;
    if PassesBelowLimit(h, ops, |ops|, id) {
      forall n | 0 <= n <= |ops| ensures PassCount(h, ops, n, id) <= Cap(max) {
        BelowLimitKeepsCap(h, ops, k, n);
      }
    } else {
      var i :| 0 <= i < |ops| && PassesAt(h, ops, i, id) && !BelowStoredLimit(h, ops, i, id);
      PassAtLimitBreaks(h, ops, k, i);
    }
  }

  lemma PassAtLimitBreaks(h: Hash, ops: seq<Op>, k: nat, i: nat)
    requires FreshIds(ops) && k < |ops| && i < |ops| && IssuesAt(h, ops, k)
    requires PassesAt(h, ops, i, ops[k].id) && !BelowStoredLimit(h, ops, i, ops[k].id)
    ensures PassCount(h, ops, i + 1, ops[k].id) > Cap(IssuedToken(h, ops, k).maxExecutions)
  {
    PassFindsStored(h, ops, k, i);
  }

  /** The same validation, n times. */
  function Repeated(h: Hash, s: State, op: Op, n: nat): State {
    if n == 0 then s else Step(h, Repeated(h, s, op, n - 1), op)
  }

  /** A presented object that passes once passes every time it is presented again: only the
      stored object's count moves, and it is not looked at. */
  lemma {:induction false} CopyPassesEveryTime(h: Hash, s: State, op: Op, n: nat)
    requires op.Validate? && Succeeds(h, s, op)
    ensures var t := Repeated(h, s, op, n);
      var id := op.presented.tokenId;
      Succeeds(h, t, op) && t.active == s.active && t.tokens.Keys == s.tokens.Keys && id in t.tokens &&
      t.tokens[id] == s.tokens[id].(executionCount := s.tokens[id].executionCount + n)
  {
    if n > 0 {
      CopyPassesEveryTime(h, s, op, n - 1);
    }
  }

  /** A copy of a stored token made out for any action and time. */
  function MadeOut(h: Hash, s: State, id: string, action: string, args: Value, now: int): Token
    requires id in s.tokens && s.active.Some?
  {
    var t := s.tokens[id];
    t.(tokenId := id, parametersHash := ParametersHash(h, action, args), policyHash := s.active.value.policyHash,
       expiresAt := now + 1, maxExecutions := t.executionCount + 1, signature := t.signature + "0123456789")
  }

  /** Beyond existence, the active policy and the kill switch, every check reads the presented
      object: some object with this id passes, for whatever action, arguments and time, if
      and only if those three allow it. */
  lemma SomeCopyPassesIff(h: Hash, s: State, id: string, action: string, args: Value, kill: bool, now: int)
    ensures (exists t: Token :: t.tokenId == id && Succeeds(h, s, Validate(t, action, args, kill, now))) <==>
            id in s.tokens && s.active.Some? && !kill
  {
    if id in s.tokens && s.active.Some? && !kill {
      var t := MadeOut(h, s, id, action, args, now);
      assert t.tokenId == id && Succeeds(h, s, Validate(t, action, args, kill, now));
    }
  }

  // ---------------------------------------------------------------------
  // The layer's objects
  // ---------------------------------------------------------------------

  datatype Status = Active | Revoked | Superseded

  class SignedPolicy {
    const policy: Policy
    var status: Status

    constructor (p: Policy)
      ensures policy == p && status == Active
    {
      policy := p;
      status := Active;
    }
  }

  class AuthorityLayer {
    const sha256: Hash
    var activePolicy: SignedPolicy?
    var authorizationTokens: map<string, Token>
    ghost var policies: set<SignedPolicy>  // every policy object ever activated

    /** A policy object is ACTIVE exactly when it is the current one. */
    ghost predicate Valid()
      reads this, policies
    {
      (activePolicy != null ==> activePolicy in policies) &&
      forall p | p in policies :: p.status == Active <==> p == activePolicy
    }

    ghost function Snapshot(): State
      reads this
    {
      State(if activePolicy == null then None else Some(activePolicy.policy), authorizationTokens)
    }

    constructor (h: Hash)
      ensures Valid() && sha256 == h && policies == {} && Snapshot() == State(None, map[])
    {
      sha256 := h;
      activePolicy := null;
      authorizationTokens := map[];
      policies := {};
    }

    method ActivatePolicy(id: string, rules: Rules, signature: string, rootPublicKey: string, now: int)
      returns (policy: SignedPolicy?)
      requires Valid()
      modifies this, policies
      ensures Valid() && Snapshot() == Step(sha256, old(Snapshot()), Activate(id, rules, signature, rootPublicKey, now))
      ensures policy == null <==> |rootPublicKey| == 0 || |signature| < 64
      ensures policy != null ==>
        policy.policy == Policy(id, PolicyHash(sha256, id, rules), signature, rootPublicKey, rules, now)
      ensures policy == null ==> policies == old(policies) && forall p | p in policies :: p.status == old(p.status)
      ensures policy != null ==> fresh(policy) && activePolicy == policy && policies == old(policies) + {policy}
      ensures policy != null ==> forall p | p in old(policies) ::
        p.status == (if old(p.status) == Active then Superseded else old(p.status))
    {
      if !(|rootPublicKey| > 0 && |signature| >= 64) {
        return null;
      }
      policy := new SignedPolicy(NewPolicy(sha256, id, rules, signature, rootPublicKey, now));
      if activePolicy != null && activePolicy.status == Active {
        activePolicy.status := Superseded;
      }
      activePolicy := policy;
      policies := policies + {policy};
    }

    method RevokePolicy()
      requires Valid()
      modifies this, policies
      ensures Valid() && activePolicy == null && policies == old(policies)
      ensures Snapshot() == Step(sha256, old(Snapshot()), Revoke)
      ensures forall p | p in policies :: p.status == (if old(p.status) == Active then Revoked else old(p.status))
    {
      if activePolicy != null {
        activePolicy.status := Revoked;
        activePolicy := null;
      }
    }

    method IssueAuthorizationToken(grant: Grant, id: string, now: int) returns (token: Option<Token>)
      requires Valid()
      modifies this`authorizationTokens
      ensures Valid() && Snapshot() == Step(sha256, old(Snapshot()), Issue(id, grant, now))
      ensures token.Some? <==> activePolicy != null
      ensures token.Some? ==> id in authorizationTokens && authorizationTokens[id] == token.value
    {
      if activePolicy == null {
        return None;
      }
      var t := NewToken(sha256, activePolicy.policy, grant, id, now);
      authorizationTokens := authorizationTokens[id := t];
      token := Some(t);
    }

    method ValidateAuthorizationToken(t: Token, action: string, args: Value, killSwitch: bool, now: int)
      returns (valid: bool, checks: Checks)
      requires Valid()
      modifies this`authorizationTokens
      ensures Valid() && Snapshot() == Step(sha256, old(Snapshot()), Validate(t, action, args, killSwitch, now))
      ensures checks == Validation(sha256, old(Snapshot()), t, action, args, killSwitch, now)
      ensures valid <==> checks.AllPass()
    {
      var inStore := t.tokenId in authorizationTokens;
      checks := Checks(
        inStore, |t.signature| >= 10, now < t.expiresAt, t.executionCount < t.maxExecutions,
        t.parametersHash == ParametersHash(sha256, action, args), !killSwitch,
        activePolicy != null && t.policyHash == activePolicy.policy.policyHash);
      valid := checks.AllPass();
      if valid && inStore {
        var stored := authorizationTokens[t.tokenId];
        authorizationTokens := authorizationTokens[t.tokenId := Counted(stored)];
      }
    }

    method BurnAuthorizationToken(id: string) returns (burned: bool)
      requires Valid()
      modifies this`authorizationTokens
      ensures Valid() && Snapshot() == Step(sha256, old(Snapshot()), Burn(id))
      ensures burned <==> id in old(authorizationTokens)
    {
      burned := id in authorizationTokens;
      if burned {
        authorizationTokens := authorizationTokens - {id};
      }
    }
  }
}
