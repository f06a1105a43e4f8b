/** The Python orchestrator: propose, approve, execute, over single-use tokens.

    Ids, times, the adapter's outcome and the canonical text of tool arguments are inputs.
    Between calls the environment may replace an intent's arguments, since propose hands
    out the stored dict, and may activate another policy. */
module Orchestrator {
  import opened Wrappers

  // ---------------------------------------------------------------------
  // Tokens
  // ---------------------------------------------------------------------

  /** The hash of a tool name and its arguments, and the HMAC of a token's payload. */
  datatype Crypto = Crypto(argsHash: (string, string) -> string, sign: Payload -> string)

  ghost predicate ArgsBind(c: Crypto) {
    forall t, x, u, y :: c.argsHash(t, x) == c.argsHash(u, y) ==> t == u && x == y
  }

  /** An HMAC in hexadecimal is longer than the ten characters that are asked for. */
  ghost predicate SignsAtLength(c: Crypto) {
    forall p :: |c.sign(p)| >= 10
  }

  datatype Payload = Payload(tokenId: string, intentId: string, approvalId: string, tool: string, argsHash: string,
                             environment: string, issuedAt: int, expiresAt: int, maxExecutions: int, nonce: string)

  datatype Token = Token(payload: Payload, count: int, policyHash: string, signature: string)

  datatype Policy = Policy(hash: string, expiryMinutes: int, maxExecutions: int)

  /** Python's "or": nought counts as not given. */
  function OrElse(given: int, fallback: int): int {
    if given != 0 then given else fallback
  }

  datatype Ids = Ids(approvalId: string, tokenId: string, nonce: string, environment: string)

  function IssuedPayload(c: Crypto, p: Policy, intentId: string, tool: string, args: string, minutes: int, ids: Ids,
      now: int): Payload {
    Payload(ids.tokenId, intentId, ids.approvalId, tool, c.argsHash(tool, args), ids.environment, now,
            now + OrElse(minutes, p.expiryMinutes) * 60 * 1000, p.maxExecutions, ids.nonce)
  }

  function IssuedToken(c: Crypto, p: Policy, intentId: string, tool: string, args: string, minutes: int, ids: Ids,
      now: int): Token {
    var payload := IssuedPayload(c, p, intentId, tool, args, minutes, ids, now);
    Token(payload, 0, p.hash, c.sign(payload))
  }

  datatype Checks = Checks(signatureValid: bool, notExpired: bool, toolMatch: bool, hashMatch: bool, policyMatch: bool,
                           inStore: bool, underMax: bool, killSwitchOff: bool)

  predicate AllPass(k: Checks) {
    k.signatureValid && k.notExpired && k.toolMatch && k.hashMatch && k.policyMatch && k.inStore && k.underMax &&
      k.killSwitchOff
  }

  predicate SignatureValid(c: Crypto, t: Token) {
    |t.signature| >= 10 && t.signature == c.sign(t.payload)
  }

  function Validation(c: Crypto, tokens: map<string, Token>, policy: Option<Policy>, t: Token, tool: string,
      args: string, now: int): Checks {
    Checks(SignatureValid(c, t), now < t.payload.expiresAt, t.payload.tool == tool,
           t.payload.argsHash == c.argsHash(tool, args), policy.Some? && t.policyHash == policy.value.hash,
           t.payload.tokenId in tokens, t.count < t.payload.maxExecutions, true)
  }

  // ---------------------------------------------------------------------
  // The system
  // ---------------------------------------------------------------------

  datatype Status = PendingApproval | Approved | Executed | Denied

  datatype Intent = Intent(tool: string, args: string, proposer: string, status: Status, approvalId: Option<string>,
                           tokenId: Option<string>, receiptId: Option<string>)

  /** What an approval fixed: kept as history only. */
  datatype Grant = Grant(approver: string, tool: string, args: string, policyHash: string, expiresAt: int,
      maxExecutions: int)

  /** One time that the gate let an intent through to the adapter: history only. */
  datatype Pass = Pass(intentId: string, tool: string, args: string, policyHash: string, at: int)

  datatype Sys = Sys(intents: map<string, Intent>, tokens: map<string, Token>, policy: Option<Policy>,
                     grants: map<string, Grant>, passes: seq<Pass>, receipts: seq<string>)

  const EMPTY := Sys(map[], map[], None, map[], [], [])

  /** The adapter returns, or raises, or returns what cannot be put in a receipt. Without
      an adapter a dry run is returned. */
  datatype Adapter = Returns | Raises | ReturnsUnprintable

  datatype Answer = Done | NotFound | NotPending | SelfApproval | NoPolicy | NotApproved | NoToken | TokenConsumed
                  | GateDenied(checks: Checks) | AdapterRaised | ReceiptRaised

  datatype Op =
    | Propose(id: string, tool: string, args: string, proposer: string)
    | Approve(id: string, approver: string, minutes: int, ids: Ids, now: int)
    | Execute(id: string, adapter: Adapter, receiptId: string, now: int)
    | Replace(id: string, args: string)
    | Activate(policy: Policy)

  function ApproveAnswer(s: Sys, id: string, approver: string): Answer {
    if id !in s.intents then NotFound
    else if s.intents[id].status != PendingApproval then NotPending
    else if s.intents[id].proposer == approver then SelfApproval
    else if s.policy.None? then NoPolicy
    else Done
  }

  function Approving(c: Crypto, s: Sys, id: string, approver: string, minutes: int, ids: Ids, now: int): Sys
    requires ApproveAnswer(s, id, approver) == Done
  {
    var i := s.intents[id];
    var token := IssuedToken(c, s.policy.value, id, i.tool, i.args, minutes, ids, now);
    var grant := Grant(approver, i.tool, i.args, s.policy.value.hash, token.payload.expiresAt,
      token.payload.maxExecutions);
    var approved := i.(status := Approved, approvalId := Some(ids.approvalId), tokenId := Some(ids.tokenId));
    s.(intents := s.intents[id := approved],
       tokens := s.tokens[ids.tokenId := token],
       grants := s.grants[id := grant])
  }

  /** What execute answers before it reaches the adapter; Done stands for going on. */
  function GateAnswer(c: Crypto, s: Sys, id: string, now: int): Answer {
    if id !in s.intents then NotFound
    else
      var i := s.intents[id];
      if i.status != Approved then NotApproved
      else if i.tokenId.None? then NoToken
      else if i.tokenId.value !in s.tokens then TokenConsumed
      else
        var checks := Validation(c, s.tokens, s.policy, s.tokens[i.tokenId.value], i.tool, i.args, now);
        if AllPass(checks) then Done else GateDenied(checks)
  }

  function Denying(s: Sys, id: string): Sys
    requires id in s.intents
  {
    s.(intents := s.intents[id := s.intents[id].(status := Denied)])
  }

  /** The validation counts before the adapter runs. */
  function Passing(s: Sys, id: string, now: int): Sys
    requires id in s.intents && s.intents[id].tokenId.Some? && s.intents[id].tokenId.value in s.tokens
  {
    var i := s.intents[id];
    var t := s.tokens[i.tokenId.value];
    s.(tokens := s.tokens[i.tokenId.value := t.(count := t.count + 1)],
       passes := s.passes + [Pass(id, i.tool, i.args, t.policyHash, now)])
  }

  /** Receipt, burn, and the intent's last change. */
  function Finishing(s: Sys, id: string, receiptId: string): Sys
    requires id in s.intents && s.intents[id].tokenId.Some?
  {
    s.(tokens := s.tokens - {s.intents[id].tokenId.value},
       receipts := s.receipts + [id],
       intents := s.intents[id := s.intents[id].(status := Executed, receiptId := Some(receiptId))])
  }

  function Step(c: Crypto, s: Sys, op: Op): (Sys, Answer) {
    match op
    case Propose(id, tool, args, proposer) =>
      (s.(intents := s.intents[id := Intent(tool, args, proposer, PendingApproval, None, None, None)]), Done)
    case Approve(id, approver, minutes, ids, now) =>
      var answer := ApproveAnswer(s, id, approver);
      (if answer == Done then Approving(c, s, id, approver, minutes, ids, now) else s, answer)
    case Execute(id, adapter, receiptId, now) =>
      var answer := GateAnswer(c, s, id, now);
      if answer.GateDenied? then (Denying(s, id), answer)
      else if !answer.Done? then (s, answer)
      else if adapter.Raises? then (Passing(s, id, now), AdapterRaised)
      else if adapter.ReturnsUnprintable? then (Passing(s, id, now), ReceiptRaised)
      else (Finishing(Passing(s, id, now), id, receiptId), Done)
    case Replace(id, args) =>
      (if id in s.intents then s.(intents := s.intents[id := s.intents[id].(args := args)]) else s, Done)
    case Activate(policy) => (s.(policy := Some(policy)), Done)
  }

  // ---------------------------------------------------------------------
  // The invariant
  // ---------------------------------------------------------------------

  function PassesOf(passes: seq<Pass>, id: string): nat {
    if passes == [] then 0
    else PassesOf(passes[..|passes| - 1], id) + (if passes[|passes| - 1].intentId == id then 1 else 0)
  }

  function ReceiptsOf(receipts: seq<string>, id: string): nat {
    if receipts == [] then 0
    else ReceiptsOf(receipts[..|receipts| - 1], id) + (if receipts[|receipts| - 1] == id then 1 else 0)
  }

  lemma PassesAfter(passes: seq<Pass>, p: Pass, id: string)
    ensures PassesOf(passes + [p], id) == PassesOf(passes, id) + if p.intentId == id then 1 else 0
  {
    assert (passes + [p])[..|passes|] == passes;
  }

  lemma ReceiptsAfter(receipts: seq<string>, r: string, id: string)
    ensures ReceiptsOf(receipts + [r], id) == ReceiptsOf(receipts, id) + if r == id then 1 else 0
  {
    assert (receipts + [r])[..|receipts|] == receipts;
  }

  function Cap(max: int): nat {
    if max < 0 then 0 else max
  }

  ghost predicate TokenFits(c: Crypto, t: Token, id: string, tokenId: string, g: Grant, used: nat) {
    t.payload.tokenId == tokenId && t.payload.intentId == id && t.payload.tool == g.tool &&
    t.payload.argsHash == c.argsHash(g.tool, g.args) && t.payload.expiresAt == g.expiresAt &&
    t.payload.maxExecutions == g.maxExecutions && t.policyHash == g.policyHash && t.count == used &&
    t.signature == c.sign(t.payload)
  }

  /** No grant while pending; from then on a grant by somebody else. A live token matches
      the grant and its count is the number of passes. One receipt, and no token, exactly
      when executed. */
  ghost predicate IntentInv(c: Crypto, s: Sys, id: string)
    requires id in s.intents
  {
    var i := s.intents[id];
    var used := PassesOf(s.passes, id);
    ReceiptsOf(s.receipts, id) == (if i.status == Executed then 1 else 0) &&
    (i.status == PendingApproval ==> id !in s.grants && i.tokenId.None? && used == 0) &&
    (i.status != PendingApproval ==>
       id in s.grants && i.tokenId.Some? && s.grants[id].approver != i.proposer && s.grants[id].tool == i.tool &&
       used <= Cap(s.grants[id].maxExecutions)) &&
    (i.status == Approved ==>
       i.tokenId.value in s.tokens &&
         TokenFits(c, s.tokens[i.tokenId.value], id, i.tokenId.value, s.grants[id], used)) &&
    (i.status == Executed ==> i.tokenId.value !in s.tokens && used >= 1)
  }

  /** A pass had the tool, the arguments' hash and the policy of its grant, in time. */
  ghost predicate PassFits(c: Crypto, grants: map<string, Grant>, p: Pass) {
    p.intentId in grants &&
    var g := grants[p.intentId];
    p.tool == g.tool && c.argsHash(p.tool, p.args) == c.argsHash(g.tool, g.args) && p.policyHash == g.policyHash &&
      p.at < g.expiresAt
  }

  /** Nothing is on record for an id that was never proposed. */
  ghost predicate Unused(s: Sys, id: string) {
    id !in s.grants && PassesOf(s.passes, id) == 0 && ReceiptsOf(s.receipts, id) == 0
  }

  ghost predicate Inv(c: Crypto, s: Sys) {
    (forall id | id in s.intents :: IntentInv(c, s, id)) &&
    (forall id | id !in s.intents :: Unused(s, id)) &&
    (forall k | 0 <= k < |s.passes| :: PassFits(c, s.grants, s.passes[k]))
  }

  /** Generated ids are new. */
  ghost predicate IdsAreFresh(s: Sys, op: Op) {
    match op
    case Propose(id, _, _, _) => id !in s.intents
    case Approve(_, _, _, ids, _) => forall j | j in s.intents :: s.intents[j].tokenId != Some(ids.tokenId)
    case _ => true
  }

  lemma ProposeKeeps(c: Crypto, s: Sys, op: Op)
    requires Inv(c, s) && IdsAreFresh(s, op) && (op.Propose? || op.Replace? || op.Activate?)
    ensures Inv(c, Step(c, s, op).0)
  {
    var t := Step(c, s, op).0;
    forall id | id in t.intents ensures IntentInv(c, t, id) {
      if id in s.intents {
        assert IntentInv(c, s, id);
      } else {
        assert Unused(s, id);
      }
    }
    forall id | id !in t.intents ensures Unused(t, id) {
      assert Unused(s, id);
    }
  }

  lemma ApprovingKeepsIntent(c: Crypto, s: Sys, op: Op, id: string)
    requires Inv(c, s) && IdsAreFresh(s, op) && op.Approve? && ApproveAnswer(s, op.id, op.approver) == Done
    requires id in s.intents
    ensures IntentInv(c, Approving(c, s, op.id, op.approver, op.minutes, op.ids, op.now), id)
  {
    assert IntentInv(c, s, id);
    assert IntentInv(c, s, op.id);
  }

  lemma ApprovingKeepsPasses(c: Crypto, s: Sys, op: Op)
    requires Inv(c, s) && op.Approve? && ApproveAnswer(s, op.id, op.approver) == Done
    ensures forall k | 0 <= k < |s.passes| ::
              PassFits(c, Approving(c, s, op.id, op.approver, op.minutes, op.ids, op.now).grants, s.passes[k])
  {
    forall k | 0 <= k < |s.passes|
      ensures PassFits(c, Approving(c, s, op.id, op.approver, op.minutes, op.ids, op.now).grants, s.passes[k])
    {
      assert PassFits(c, s.grants, s.passes[k]);
      assert IntentInv(c, s, op.id);
    }
  }

  lemma ApproveKeeps(c: Crypto, s: Sys, op: Op)
    requires Inv(c, s) && IdsAreFresh(s, op) && op.Approve?
    ensures Inv(c, Step(c, s, op).0)
  {
    if ApproveAnswer(s, op.id, op.approver) == Done {
      var t := Approving(c, s, op.id, op.approver, op.minutes, op.ids, op.now);
      forall id | id in t.intents ensures IntentInv(c, t, id) {
        ApprovingKeepsIntent(c, s, op, id);
      }
      forall id | id !in t.intents ensures Unused(t, id) {
        assert Unused(s, id);
      }
      ApprovingKeepsPasses(c, s, op);
    }
  }

  lemma DenyingKeeps(c: Crypto, s: Sys, id: string)
    requires Inv(c, s) && id in s.intents && s.intents[id].status == Approved
    ensures Inv(c, Denying(s, id))
  {
    var t := Denying(s, id);
    forall j | j in t.intents ensures IntentInv(c, t, j) {
      assert IntentInv(c, s, j);
    }
    forall j | j !in t.intents ensures Unused(t, j) {
      assert Unused(s, j);
    }
  }

  lemma PassingKeepsIntent(c: Crypto, s: Sys, id: string, now: int, j: string)
    requires Inv(c, s) && GateAnswer(c, s, id, now) == Done && j in s.intents
    ensures IntentInv(c, Passing(s, id, now), j)
  {
    var t := Passing(s, id, now);
    assert IntentInv(c, s, id);
    assert IntentInv(c, s, j);
    PassesAfter(s.passes, t.passes[|s.passes|], j);
  }

  lemma PassingKeeps(c: Crypto, s: Sys, id: string, now: int)
    requires Inv(c, s) && GateAnswer(c, s, id, now) == Done
    ensures Inv(c, Passing(s, id, now))
  {
    var t := Passing(s, id, now);
    var p := t.passes[|s.passes|];
    forall j | j in t.intents ensures IntentInv(c, t, j) {
      PassingKeepsIntent(c, s, id, now, j);
    }
    forall j | j !in t.intents ensures Unused(t, j) {
      assert Unused(s, j);
      PassesAfter(s.passes, p, j);
    }
    assert PassFits(c, t.grants, p) by {
      assert IntentInv(c, s, id);
    }
    forall k | 0 <= k < |t.passes| ensures PassFits(c, t.grants, t.passes[k]) {
      assert k < |s.passes| ==> PassFits(c, s.grants, s.passes[k]);
    }
  }

  lemma FinishingKeepsOther(c: Crypto, s: Sys, id: string, receiptId: string, j: string)
    requires id in s.intents && s.intents[id].status == Approved && IntentInv(c, s, id)
    requires j in s.intents && j != id && IntentInv(c, s, j)
    ensures IntentInv(c, Finishing(s, id, receiptId), j)
  {
    ReceiptsAfter(s.receipts, id, j);
    var t := Finishing(s, id, receiptId);
    assert t.intents[j] == s.intents[j] && t.grants == s.grants && t.passes == s.passes;
    if s.intents[j].status == Approved {
      assert s.tokens[s.intents[j].tokenId.value].payload.intentId == j;
      assert t.tokens[s.intents[j].tokenId.value] == s.tokens[s.intents[j].tokenId.value];
    }
  }

  lemma FinishingKeepsSelf(c: Crypto, s: Sys, id: string, receiptId: string)
    requires id in s.intents && s.intents[id].status == Approved && IntentInv(c, s, id) && PassesOf(s.passes, id) >= 1
    ensures IntentInv(c, Finishing(s, id, receiptId), id)
  {
    ReceiptsAfter(s.receipts, id, id);
    var t := Finishing(s, id, receiptId);
    assert t.grants == s.grants && t.passes == s.passes && t.intents[id].tokenId == s.intents[id].tokenId;
  }

  lemma FinishingKeeps(c: Crypto, s: Sys, id: string, receiptId: string)
    requires Inv(c, s) && id in s.intents && s.intents[id].status == Approved && PassesOf(s.passes, id) >= 1
    ensures s.intents[id].tokenId.Some? && Inv(c, Finishing(s, id, receiptId))
  {
    assert IntentInv(c, s, id);
    var t := Finishing(s, id, receiptId);
    forall j | j in t.intents ensures IntentInv(c, t, j) {
      if j == id {
        FinishingKeepsSelf(c, s, id, receiptId);
      } else {
        assert IntentInv(c, s, j);
        FinishingKeepsOther(c, s, id, receiptId, j);
      }
    }
    forall j | j !in t.intents ensures Unused(t, j) {
      assert Unused(s, j);
      ReceiptsAfter(s.receipts, id, j);
    }
  }

  lemma PassingCounts(c: Crypto, s: Sys, id: string, now: int)
    requires GateAnswer(c, s, id, now) == Done
    ensures var t := Passing(s, id, now);
      id in t.intents && t.intents[id].status == Approved && PassesOf(t.passes, id) == PassesOf(s.passes, id) + 1
  {
    PassesAfter(s.passes, Passing(s, id, now).passes[|s.passes|], id);
  }

  lemma ExecuteKeeps(c: Crypto, s: Sys, op: Op)
    requires Inv(c, s) && op.Execute?
    ensures Inv(c, Step(c, s, op).0)
  {
    var answer := GateAnswer(c, s, op.id, op.now);
    if answer.GateDenied? {
      DenyingKeeps(c, s, op.id);
    } else if answer.Done? {
      PassingKeeps(c, s, op.id, op.now);
      PassingCounts(c, s, op.id, op.now);
      if op.adapter.Returns? {
        FinishingKeeps(c, Passing(s, op.id, op.now), op.id, op.receiptId);
      }
    }
  }

  lemma StepKeepsInv(c: Crypto, s: Sys, op: Op)
    requires Inv(c, s) && IdsAreFresh(s, op)
    ensures Inv(c, Step(c, s, op).0)
  {
    match op
    case Approve(_, _, _, _, _) => ApproveKeeps(c, s, op);
    case Execute(_, _, _, _) => ExecuteKeeps(c, s, op);
    case _ => ProposeKeeps(c, s, op);
  }

  // ---------------------------------------------------------------------
  // Runs
  // ---------------------------------------------------------------------

  ghost predicate IsRun(c: Crypto, states: seq<Sys>, ops: seq<Op>) {
    |states| == |ops| + 1 && states[0] == EMPTY &&
    forall i {:trigger Step(c, states[i], ops[i])} | 0 <= i < |ops| ::
      IdsAreFresh(states[i], ops[i]) && states[i + 1] == Step(c, states[i], ops[i]).0
  }

  lemma {:induction false} RunKeepsInv(c: Crypto, states: seq<Sys>, ops: seq<Op>, n: nat)
    requires IsRun(c, states, ops) && n <= |ops|
    ensures Inv(c, states[n])
  {
    if n > 0 {
      RunKeepsInv(c, states, ops, n - 1);
      assert states[n] == Step(c, states[n - 1], ops[n - 1]).0;
      StepKeepsInv(c, states[n - 1], ops[n - 1]);
    }
  }

  /** At any point of any run: one receipt per executed intent and none for any other; what
      went to the adapter had the arguments, tool and policy that somebody other than the
      proposer approved, in time, at most as often as the policy allows; and the token of an
      executed intent is gone. */
  lemma ExecutedAsApproved(c: Crypto, states: seq<Sys>, ops: seq<Op>, n: nat, id: string)
    requires ArgsBind(c) && IsRun(c, states, ops) && n <= |ops| && id in states[n].intents
    ensures var s := states[n];
      var i := s.intents[id];
      ReceiptsOf(s.receipts, id) == (if i.status == Executed then 1 else 0) &&
      (i.status == Executed ==> PassesOf(s.passes, id) >= 1 && i.tokenId.Some? && i.tokenId.value !in s.tokens) &&
      (PassesOf(s.passes, id) >= 1 ==>
         id in s.grants && s.grants[id].approver != i.proposer &&
           PassesOf(s.passes, id) <= Cap(s.grants[id].maxExecutions))
    ensures forall k | 0 <= k < |states[n].passes| && states[n].passes[k].intentId == id ::
              id in states[n].grants &&
              var p, g := states[n].passes[k], states[n].grants[id];
              p.tool == g.tool && p.args == g.args && p.policyHash == g.policyHash && p.at < g.expiresAt
  {
    RunKeepsInv(c, states, ops, n);
    assert IntentInv(c, states[n], id);
    forall k | 0 <= k < |states[n].passes| && states[n].passes[k].intentId == id
      ensures id in states[n].grants && states[n].passes[k].args == states[n].grants[id].args
    {
      assert PassFits(c, states[n].grants, states[n].passes[k]);
    }
  }

  // ---------------------------------------------------------------------
  // Back to the operations
  // ---------------------------------------------------------------------

  /** The arguments that the operations so far leave an intent with: the proposed ones, or
      those of the last replacement. */
  function ArgsAfter(ops: seq<Op>, n: nat, id: string): Option<string>
    requires n <= |ops|
  {
    if n == 0 then None
    else
      match ops[n - 1]
      case Propose(j, _, args, _) => if j == id then Some(args) else ArgsAfter(ops, n - 1, id)
      case Replace(j, args) =>
        var before := ArgsAfter(ops, n - 1, id);
        if j == id && before.Some? then Some(args) else before
      case _ => ArgsAfter(ops, n - 1, id)
  }

  /** A step that finds the intent keeps its tool and proposer, and only Replace its arguments. */
  lemma StepKeepsProposal(c: Crypto, s: Sys, op: Op, id: string)
    requires IdsAreFresh(s, op) && id in s.intents
    ensures var t := Step(c, s, op).0;
      id in t.intents && t.intents[id].tool == s.intents[id].tool && t.intents[id].proposer == s.intents[id].proposer &&
      t.intents[id].args == if op.Replace? && op.id == id then op.args else s.intents[id].args
  {
  }

  /** Only Propose brings an intent in, with what it says. */
  lemma StepProposes(c: Crypto, s: Sys, op: Op, id: string)
    requires id !in s.intents && id in Step(c, s, op).0.intents
    ensures op.Propose? && op.id == id
    ensures Step(c, s, op).0.intents[id] == Intent(op.tool, op.args, op.proposer, PendingApproval, None, None, None)
  {
  }

  lemma RunStep(c: Crypto, states: seq<Sys>, ops: seq<Op>, i: nat)
    requires IsRun(c, states, ops) && i < |ops|
    ensures states[i + 1] == Step(c, states[i], ops[i]).0 && IdsAreFresh(states[i], ops[i])
  {
  }

  /** Every intent came from one Propose, and still has its tool and proposer. */
  lemma {:induction false} ProposedBy(c: Crypto, states: seq<Sys>, ops: seq<Op>, n: nat, id: string) returns (k: nat)
    requires IsRun(c, states, ops) && n <= |ops| && id in states[n].intents
    ensures k < n && ops[k].Propose? && ops[k].id == id
    ensures states[n].intents[id].tool == ops[k].tool && states[n].intents[id].proposer == ops[k].proposer
  {
    RunStep(c, states, ops, n - 1);
    if id in states[n - 1].intents {
      k := ProposedBy(c, states, ops, n - 1, id);
      StepKeepsProposal(c, states[n - 1], ops[n - 1], id);
    } else {
      k := n - 1;
      StepProposes(c, states[n - 1], ops[n - 1], id);
    }
  }

  lemma {:induction false} ArgsFollow(c: Crypto, states: seq<Sys>, ops: seq<Op>, n: nat, id: string)
    requires IsRun(c, states, ops) && n <= |ops|
    ensures ArgsAfter(ops, n, id) == if id in states[n].intents then Some(states[n].intents[id].args) else None
  {
    if n > 0 {
      RunStep(c, states, ops, n - 1);
      ArgsFollow(c, states, ops, n - 1, id);
      if id in states[n - 1].intents {
        StepKeepsProposal(c, states[n - 1], ops[n - 1], id);
      } else if id in states[n].intents {
        StepProposes(c, states[n - 1], ops[n - 1], id);
      }
    }
  }

  /** Only an Approve that answers Done makes a grant, of what stands at that moment. */
  lemma StepGrants(c: Crypto, s: Sys, op: Op, id: string)
    requires id in Step(c, s, op).0.grants
    ensures !(op.Approve? && op.id == id) ==> id in s.grants && Step(c, s, op).0.grants[id] == s.grants[id]
    ensures op.Approve? && op.id == id && Step(c, s, op).1 == Done ==>
      id in s.intents && s.intents[id].status == PendingApproval && s.intents[id].proposer != op.approver &&
      s.policy.Some? &&
      Step(c, s, op).0.grants[id] ==
        Grant(op.approver, s.intents[id].tool, s.intents[id].args, s.policy.value.hash,
              op.now + (if op.minutes != 0 then op.minutes else s.policy.value.expiryMinutes) * 60_000,
              s.policy.value.maxExecutions)
    ensures op.Approve? && op.id == id && Step(c, s, op).1 != Done ==> Step(c, s, op).0 == s
  {
  }

  lemma {:induction false} GrantedBy(c: Crypto, states: seq<Sys>, ops: seq<Op>, n: nat, id: string) returns (m: nat)
    requires IsRun(c, states, ops) && n <= |ops| && id in states[n].grants
    ensures m < n && ops[m].Approve? && ops[m].id == id && Step(c, states[m], ops[m]).1 == Done
    ensures states[n].grants[id] == states[m + 1].grants[id] && id in states[m + 1].grants
  {
    RunStep(c, states, ops, n - 1);
    var op := ops[n - 1];
    StepGrants(c, states[n - 1], op, id);
    if op.Approve? && op.id == id && Step(c, states[n - 1], op).1 == Done {
      m := n - 1;
    } else {
      m := GrantedBy(c, states, ops, n - 1, id);
    }
  }

  /** From the operations alone: whatever reached an adapter was proposed by somebody, and
      approved by somebody else in an Approve that answered Done; it had the proposed tool,
      and the arguments that were proposed or last put in their place before that Approve. */
  lemma PassedMeansApproved(c: Crypto, states: seq<Sys>, ops: seq<Op>, n: nat, j: nat) returns (k: nat, m: nat)
    requires ArgsBind(c) && IsRun(c, states, ops) && n <= |ops| && j < |states[n].passes|
    ensures var p := states[n].passes[j];
      k < m < n && ops[k].Propose? && ops[k].id == p.intentId && ops[m].Approve? && ops[m].id == p.intentId &&
      Step(c, states[m], ops[m]).1 == Done && ops[m].approver != ops[k].proposer &&
      p.tool == ops[k].tool && ArgsAfter(ops, m, p.intentId) == Some(p.args) &&
      states[m].policy.Some? && p.policyHash == states[m].policy.value.hash &&
      var minutes := if ops[m].minutes != 0 then ops[m].minutes else states[m].policy.value.expiryMinutes;
      p.at < ops[m].now + minutes * 60_000
  {
    var p := states[n].passes[j];
    RunKeepsInv(c, states, ops, n);
    assert PassFits(c, states[n].grants, p);
    m := GrantedBy(c, states, ops, n, p.intentId);
    RunStep(c, states, ops, m);
    StepGrants(c, states[m], ops[m], p.intentId);
    k := ProposedBy(c, states, ops, m, p.intentId);
    ArgsFollow(c, states, ops, m, p.intentId);
  }

  /** And an executed intent did reach its adapter. */
  lemma ExecutedMeansPassed(c: Crypto, states: seq<Sys>, ops: seq<Op>, n: nat, id: string) returns (j: nat)
    requires IsRun(c, states, ops) && n <= |ops| && id in states[n].intents && states[n].intents[id].status == Executed
    ensures j < |states[n].passes| && states[n].passes[j].intentId == id
  {
    RunKeepsInv(c, states, ops, n);
    assert IntentInv(c, states[n], id);
    j := SomePass(states[n].passes, id);
  }

  lemma {:induction false} SomePass(passes: seq<Pass>, id: string) returns (j: nat)
    requires PassesOf(passes, id) >= 1
    ensures j < |passes| && passes[j].intentId == id
  {
    if passes[|passes| - 1].intentId == id {
      j := |passes| - 1;
    } else {
      j := SomePass(passes[..|passes| - 1], id);
    }
  }

  /** What each answer of approve leaves behind. */
  lemma ApproveAnswers(c: Crypto, s: Sys, id: string, approver: string, minutes: int, ids: Ids, now: int)
    ensures var (t, answer) := Step(c, s, Approve(id, approver, minutes, ids, now));
      (answer == NotFound <==> id !in s.intents) &&
      (answer == NotPending <==> id in s.intents && s.intents[id].status != PendingApproval) &&
      (answer == SelfApproval <==>
        id in s.intents && s.intents[id].status == PendingApproval && s.intents[id].proposer == approver) &&
      (answer == Done <==>
        id in s.intents && s.intents[id].status == PendingApproval && s.intents[id].proposer != approver &&
        s.policy.Some?) &&
      (answer != Done ==> t == s) &&
      (answer == Done ==>
        t.intents == s.intents[id := s.intents[id].(status := Approved, approvalId := Some(ids.approvalId),
                                                    tokenId := Some(ids.tokenId))] &&
        ids.tokenId in t.tokens && t.tokens[ids.tokenId].count == 0 &&
        t.tokens[ids.tokenId].payload.intentId == id && t.tokens[ids.tokenId].payload.approvalId == ids.approvalId &&
        t.tokens[ids.tokenId].payload.nonce == ids.nonce && t.tokens[ids.tokenId].payload.issuedAt == now &&
        t.tokens[ids.tokenId].payload.environment == ids.environment &&
        t.tokens[ids.tokenId].signature == c.sign(t.tokens[ids.tokenId].payload))
  {
  }

  /** What each answer of execute leaves behind: the adapter got the intent as it stands
      exactly for the three answers past the gate, and a receipt is written for Done only. */
  lemma ExecuteAnswers(c: Crypto, s: Sys, id: string, adapter: Adapter, receiptId: string, now: int)
    ensures var (t, answer) := Step(c, s, Execute(id, adapter, receiptId, now));
      var reached := answer == Done || answer == AdapterRaised || answer == ReceiptRaised;
      (reached ==>
        id in s.intents && s.intents[id].tokenId.Some? && s.intents[id].tokenId.value in s.tokens &&
        |t.passes| == |s.passes| + 1 && t.passes[..|s.passes|] == s.passes &&
        t.passes[|s.passes|] ==
          Pass(id, s.intents[id].tool, s.intents[id].args, s.tokens[s.intents[id].tokenId.value].policyHash, now) &&
        (answer == AdapterRaised <==> adapter == Raises) &&
        (answer == ReceiptRaised <==> adapter == ReturnsUnprintable)) &&
      (!reached ==> t.passes == s.passes) && t.receipts == (if answer == Done then s.receipts + [id] else s.receipts) &&
      (answer == Done ==>
        t.intents == s.intents[id := s.intents[id].(status := Executed, receiptId := Some(receiptId))] &&
        s.intents[id].tokenId.value !in t.tokens) &&
      (answer.GateDenied? ==> id in s.intents && t.intents == s.intents[id := s.intents[id].(status := Denied)]) &&
      (answer != Done && !answer.GateDenied? ==> t.intents == s.intents)
  {
  }

  /** Nothing else is needed: an intent that is proposed, approved by somebody else under a
      policy, and executed in time goes to the adapter as it was proposed. */
  lemma ProposedApprovedExecuted(c: Crypto, s: Sys, a: Op, b: Op, e: Op)
    requires ArgsBind(c) && SignsAtLength(c) && Inv(c, s) && s.policy.Some? && s.policy.value.maxExecutions > 0
    requires a.Propose? && b.Approve? && e.Execute? && a.id == b.id == e.id && IdsAreFresh(s, a) && IdsAreFresh(s, b)
    requires a.proposer != b.approver && e.adapter == Returns
    requires e.now < b.now + (if b.minutes != 0 then b.minutes else s.policy.value.expiryMinutes) * 60_000
    ensures var s1 := Step(c, s, a).0;
      var (s2, approved) := Step(c, s1, b);
      var (s3, executed) := Step(c, s2, e);
      approved == Done && executed == Done && a.id in s3.intents && s3.intents[a.id].status == Executed &&
      s3.passes == s.passes + [Pass(a.id, a.tool, a.args, s.policy.value.hash, e.now)] &&
      s3.receipts == s.receipts + [a.id]
  {
    var s1 := Step(c, s, a).0;
    assert Unused(s, a.id);
    StepKeepsInv(c, s, a);
    ApproveAnswers(c, s1, b.id, b.approver, b.minutes, b.ids, b.now);
    var s2 := Step(c, s1, b).0;
    StepKeepsInv(c, s1, b);
    GatePassesIff(c, s2, e.id, e.now);
  }

  function Place(status: Status): nat {
    match status
    case PendingApproval => 0
    case Approved => 1
    case _ => 2
  }

  predicate Moves(from: Status, to: Status) {
    from == to || (from == PendingApproval && to == Approved) || (from == Approved && (to == Executed || to == Denied))
  }

  lemma StepMoves(c: Crypto, s: Sys, op: Op, id: string)
    requires IdsAreFresh(s, op) && id in s.intents
    ensures var t := Step(c, s, op).0;
      id in t.intents && Moves(s.intents[id].status, t.intents[id].status) &&
        t.intents[id].proposer == s.intents[id].proposer &&
      (s.intents[id].status == Executed ==> t.intents[id].tokenId == s.intents[id].tokenId)
  {
  }

  /** Executed and denied are final, and the token of an executed intent never comes back:
      whoever presents it later is refused. */
  lemma {:induction false} FinalStaysFinal(c: Crypto, states: seq<Sys>, ops: seq<Op>, m: nat, n: nat, id: string,
      t: Token)
    requires IsRun(c, states, ops) && m <= n <= |ops| && id in states[m].intents &&
      Place(states[m].intents[id].status) == 2
    ensures id in states[n].intents && states[n].intents[id].status == states[m].intents[id].status
    ensures states[m].intents[id].status == Executed ==> states[n].intents[id].tokenId == states[m].intents[id].tokenId
    ensures states[m].intents[id].status == Executed && states[m].intents[id].tokenId == Some(t.payload.tokenId) ==>
            forall tool, args, now :: !AllPass(Validation(c, states[n].tokens, states[n].policy, t, tool, args, now))
    decreases n - m
  {
    if m < n {
      FinalStaysFinal(c, states, ops, m, n - 1, id, t);
      assert states[n] == Step(c, states[n - 1], ops[n - 1]).0;
      StepMoves(c, states[n - 1], ops[n - 1], id);
    }
    RunKeepsInv(c, states, ops, n);
    assert IntentInv(c, states[n], id);
  }

  // ---------------------------------------------------------------------
  // When execution goes through
  // ---------------------------------------------------------------------

  /** In a reachable state an approved intent passes the gate exactly when its arguments are
      still the approved ones, the policy is still the one it was approved under, it is in
      time, and it has passes left. */
  lemma GatePassesIff(c: Crypto, s: Sys, id: string, now: int)
    requires ArgsBind(c) && SignsAtLength(c) && Inv(c, s) && id in s.intents && s.intents[id].status == Approved
    ensures id in s.grants
    ensures GateAnswer(c, s, id, now) == Done <==>
            s.intents[id].args == s.grants[id].args && s.policy.Some? &&
              s.policy.value.hash == s.grants[id].policyHash &&
            now < s.grants[id].expiresAt && PassesOf(s.passes, id) < s.grants[id].maxExecutions
    ensures GateAnswer(c, s, id, now) == Done || GateAnswer(c, s, id, now).GateDenied?
  {
    assert IntentInv(c, s, id);
  }

  /** An adapter that raises uses up the approval: with one execution allowed, the next
      attempt is denied for good although no receipt was written. */
  lemma RaisingUsesUpApproval(c: Crypto, s: Sys, id: string, receiptId: string, now: int, later: int)
    requires ArgsBind(c) && SignsAtLength(c) && Inv(c, s) && GateAnswer(c, s, id, now) == Done
    requires id in s.grants && s.grants[id].maxExecutions == 1
    ensures var t := Step(c, s, Execute(id, Raises, receiptId, now)).0;
      t.intents[id].status == Approved && t.receipts == s.receipts &&
      Step(c, t, Execute(id, Returns, receiptId, later)).1.GateDenied? &&
      Step(c, t, Execute(id, Returns, receiptId, later)).0.intents[id].status == Denied
  {
    var t := Passing(s, id, now);
    PassingKeeps(c, s, id, now);
    PassesAfter(s.passes, t.passes[|s.passes|], id);
    assert t.intents[id].status == Approved;
    GatePassesIff(c, t, id, later);
  }

  /** A token is out of date at the moment it is issued only when the policy's own expiry
      applies and is not positive, or a negative one was asked for. Asking for nought
      minutes gives the policy's. */
  lemma ExpiredAtIssueIff(c: Crypto, p: Policy, intentId: string, tool: string, args: string, minutes: int, ids: Ids,
      now: int)
    ensures !(now < IssuedToken(c, p, intentId, tool, args, minutes, ids, now).payload.expiresAt) <==>
            minutes < 0 || (minutes == 0 && p.expiryMinutes <= 0)
  {
  }

  // ---------------------------------------------------------------------
  // The orchestrator
  // ---------------------------------------------------------------------

  class Runtime {
    const crypto: Crypto
    var intents: map<string, Intent>
    var tokens: map<string, Token>
    var policy: Option<Policy>
    ghost var grants: map<string, Grant>
    ghost var passes: seq<Pass>
    ghost var receipts: seq<string>

    ghost function Snapshot(): Sys
      reads this
    {
      Sys(intents, tokens, policy, grants, passes, receipts)
    }

    /** Tokens are stored under their own ids. */
    ghost predicate Valid()
      reads this
    {
      forall id | id in tokens :: tokens[id].payload.tokenId == id
    }

    constructor (c: Crypto)
      ensures Valid() && crypto == c && Snapshot() == EMPTY
    {
      crypto := c;
      intents, tokens, policy := map[], map[], None;
      grants, passes, receipts := map[], [], [];
    }

    method ProposeIntent(id: string, tool: string, args: string, proposer: string)
      modifies this`intents
      ensures Snapshot() == Step(crypto, old(Snapshot()), Propose(id, tool, args, proposer)).0
    {
      intents := intents[id := Intent(tool, args, proposer, PendingApproval, None, None, None)];
    }

    method IssueToken(intentId: string, tool: string, args: string, minutes: int, ids: Ids, now: int)
      returns (token: Option<Token>)
      modifies this`tokens
      ensures token.Some? <==> policy.Some?
      ensures token.Some? ==> token.value == IssuedToken(crypto, policy.value, intentId, tool, args, minutes, ids, now)
      ensures tokens == if token.Some? then old(tokens)[ids.tokenId := token.value] else old(tokens)
    {
      if policy.None? {
        return None;
      }
      var expiry := if minutes != 0 then minutes else policy.value.expiryMinutes;
      var payload := Payload(ids.tokenId, intentId, ids.approvalId, tool, crypto.argsHash(tool, args),
        ids.environment, now, now + expiry * 60 * 1000, policy.value.maxExecutions, ids.nonce);
      token := Some(Token(payload, 0, policy.value.hash, crypto.sign(payload)));
      tokens := tokens[ids.tokenId := token.value];
    }

    method ApproveIntent(id: string, approver: string, minutes: int, ids: Ids, now: int) returns (answer: Answer)
      requires Valid()
      modifies this
      ensures Valid()
      ensures (Snapshot(), answer) == Step(crypto, old(Snapshot()), Approve(id, approver, minutes, ids, now))
    {
      if id !in intents {
        return NotFound;
      }
      var intent := intents[id];
      if intent.status != PendingApproval {
        return NotPending;
      }
      if intent.proposer == approver {
        return SelfApproval;
      }
      var token := IssueToken(id, intent.tool, intent.args, minutes, ids, now);
      if token.None? {
        return NoPolicy;
      }
      grants := grants[id := Grant(approver, intent.tool, intent.args, policy.value.hash, token.value.payload.expiresAt,
                                   token.value.payload.maxExecutions)];
      intents := intents[id := intent.(status := Approved, approvalId := Some(ids.approvalId),
        tokenId := Some(ids.tokenId))];
      answer := Done;
    }

    /** validate_authorization_token on any token, stored or not: a pass counts up the stored one. */
    method ValidateToken(token: Token, tool: string, args: string, now: int) returns (checks: Checks)
      modifies this`tokens
      ensures checks == Validation(crypto, old(tokens), policy, token, tool, args, now)
      ensures AllPass(checks) <==>
        |token.signature| >= 10 && token.signature == crypto.sign(token.payload) && now < token.payload.expiresAt &&
        token.payload.tool == tool && token.payload.argsHash == crypto.argsHash(tool, args) &&
        policy.Some? && token.policyHash == policy.value.hash &&
        token.payload.tokenId in old(tokens) && token.count < token.payload.maxExecutions
      ensures !AllPass(checks) ==> tokens == old(tokens)
      ensures AllPass(checks) ==>
        var id := token.payload.tokenId;
        id in old(tokens) && tokens == old(tokens)[id := old(tokens)[id].(count := old(tokens)[id].count + 1)]
    {
      checks := Validation(crypto, tokens, policy, token, tool, args, now);
      if AllPass(checks) {
        var stored := tokens[token.payload.tokenId];
        tokens := tokens[token.payload.tokenId := stored.(count := stored.count + 1)];
      }
    }

    method ExecuteIntent(id: string, adapter: Adapter, receiptId: string, now: int) returns (answer: Answer)
      requires Valid()
      modifies this
      ensures Valid()
      ensures (Snapshot(), answer) == Step(crypto, old(Snapshot()), Execute(id, adapter, receiptId, now))
    {
      if id !in intents {
        return NotFound;
      }
      var intent := intents[id];
      if intent.status != Approved {
        return NotApproved;
      }
      if intent.tokenId.None? {
        return NoToken;
      }
      var tokenId := intent.tokenId.value;
      if tokenId !in tokens {
        return TokenConsumed;
      }
      var checks := ValidateToken(tokens[tokenId], intent.tool, intent.args, now);
      if !AllPass(checks) {
        intents := intents[id := intent.(status := Denied)];
        return GateDenied(checks);
      }
      passes := passes + [Pass(id, intent.tool, intent.args, tokens[tokenId].policyHash, now)];
      if adapter == Raises {
        return AdapterRaised;
      }
      if adapter == ReturnsUnprintable {
        return ReceiptRaised;
      }
      receipts := receipts + [id];
      tokens := tokens - {tokenId};
      intents := intents[id := intent.(status := Executed, receiptId := Some(receiptId))];
      answer := Done;
    }
  }
}
