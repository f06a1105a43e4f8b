/** The v2 engine: intents, approvals, executions, receipts and the ledger, with serial
    requests (legacy/archive/server/rio.ts). Clock reads and fresh ids are inputs. */
module RioEngine {
  import opened Hashing

  const ANCHOR := "0000000000000000"

  datatype Status = Pending | Approved | Denied | Executed

  datatype Intent = Intent(action: string, requestedBy: string, intentHash: string, status: Status, createdAt: string)

  /** The text an approver signs. */
  datatype ApprovalData = ApprovalData(intentId: string, intentHash: string, approved: bool, decidedBy: string)

  datatype ApprovalRow = ApprovalRow(intentId: string, approved: bool, decidedBy: string, signature: string, at: string)

  datatype ExecutionRow = ExecutionRow(intentId: string, success: bool, detail: string)

  datatype ReceiptData = ReceiptData(receiptId: string, intentId: string, action: string, requestedBy: string,
    approvedBy: string, auto: bool, requestedAt: string, approvedAt: string, executedAt: string)

  datatype ReceiptRow = ReceiptRow(data: ReceiptData, previousHash: string, receiptHash: string)

  datatype LedgerData = LedgerData(blockId: string, intentId: string, action: string, auto: bool, receiptHash: string,
      at: string)

  datatype LedgerRow = LedgerRow(data: LedgerData, previousHash: string, currentHash: string)

  /** Ed25519 signing and checking, and the two payload hashes. */
  datatype Crypto = Crypto(
    sign: ApprovalData -> string,
    genuine: (ApprovalData, string) -> bool,
    receiptHash: (ReceiptData, string) -> string,
    ledgerHash: (LedgerData, string) -> string
  )

  /** What was signed checks. */
  ghost predicate SignaturesCheck(c: Crypto) {
    forall d :: c.genuine(d, c.sign(d))
  }

  function ReceiptChain(c: Crypto): View<ReceiptRow> {
    View((r: ReceiptRow) => r.previousHash, (r: ReceiptRow) => r.receiptHash,
         (r: ReceiptRow) => c.receiptHash(r.data, r.previousHash))
  }

  function LedgerChain(c: Crypto): View<LedgerRow> {
    View((r: LedgerRow) => r.previousHash, (r: LedgerRow) => r.currentHash,
         (r: LedgerRow) => c.ledgerHash(r.data, r.previousHash))
  }

  datatype Db = Db(
    intents: map<string, Intent>,
    approvals: seq<ApprovalRow>,
    executions: seq<ExecutionRow>,
    receipts: seq<ReceiptRow>,
    ledger: seq<LedgerRow>
  )

  const EMPTY := Db(map[], [], [], [], [])

  // ---------------------------------------------------------------------
  // Rows of one intent
  // ---------------------------------------------------------------------

  function Of<T>(key: T -> string, rows: seq<T>, id: string): (r: seq<T>)
    ensures forall x | x in r :: x in rows && key(x) == id
  {
    if |rows| == 0 then []
    else if key(rows[|rows| - 1]) == id then Of(key, rows[..|rows| - 1], id) + [rows[|rows| - 1]]
    else Of(key, rows[..|rows| - 1], id)
  }

  lemma OfAppend<T>(key: T -> string, rows: seq<T>, x: T, id: string)
    ensures Of(key, rows + [x], id) == if key(x) == id then Of(key, rows, id) + [x] else Of(key, rows, id)
  {
    assert (rows + [x])[..|rows|] == rows;
  }

  function ApprovalsOf(s: Db, id: string): seq<ApprovalRow> {
    Of((r: ApprovalRow) => r.intentId, s.approvals, id)
  }

  function ReceiptsOf(s: Db, id: string): seq<ReceiptRow> {
    Of((r: ReceiptRow) => r.data.intentId, s.receipts, id)
  }

  function LedgerOf(s: Db, id: string): seq<LedgerRow> {
    Of((r: LedgerRow) => r.data.intentId, s.ledger, id)
  }

  /** Keyed so that only successful executions of the intent are found. */
  function SuccessKey(r: ExecutionRow): string {
    if r.success then "+" + r.intentId else "-" + r.intentId
  }

  function SuccessesOf(s: Db, id: string): seq<ExecutionRow> {
    Of(SuccessKey, s.executions, "+" + id)
  }

  // ---------------------------------------------------------------------
  // The operations
  // ---------------------------------------------------------------------

  datatype Ids = Ids(receiptId: string, blockId: string, now: string)

  datatype Op =
    | Create(id: string, action: string, requestedBy: string, intentHash: string, createdAt: string)
    | Approve(id: string, decidedBy: string, at: string)
    | Deny(id: string, decidedBy: string, at: string)
    | Execute(id: string, ids: Ids)
    | AutoApprove(id: string, policyId: string, ids: Ids)
    | AutoDeny(id: string, policyId: string, at: string)

  datatype Answer = Done | NotFound | AlreadyDecided(status: Status) | Forbidden(why: string)

  function WithStatus(s: Db, id: string, status: Status): Db
    requires id in s.intents
  {
    s.(intents := s.intents[id := s.intents[id].(status := status)])
  }

  /** Write a signed approval row and set the intent's status. */
  function Decide(c: Crypto, s: Db, id: string, approved: bool, who: string, at: string): Db
    requires id in s.intents
  {
    var sig := c.sign(ApprovalData(id, s.intents[id].intentHash, approved, who));
    WithStatus(s, id, if approved then Approved else Denied).(
      approvals := s.approvals + [ApprovalRow(id, approved, who, sig, at)])
  }

  function Log(s: Db, id: string, success: bool, detail: string): Db {
    s.(executions := s.executions + [ExecutionRow(id, success, detail)])
  }

  /** Log the success, set the status, then write the chained receipt and ledger rows. */
  function Carry(c: Crypto, s: Db, id: string, who: string, approvedAt: string, auto: bool, ids: Ids): Db
    requires id in s.intents
  {
    var intent := s.intents[id];
    var data := ReceiptData(ids.receiptId, id, intent.action, intent.requestedBy, who, auto, intent.createdAt,
      approvedAt, ids.now);
    var prev := Tip(ReceiptChain(c), ANCHOR, s.receipts);
    var receiptHash := c.receiptHash(data, prev);
    var block := LedgerData(ids.blockId, id, intent.action, auto, receiptHash, ids.now);
    var prevLedger := Tip(LedgerChain(c), ANCHOR, s.ledger);
    WithStatus(Log(s, id, true, intent.action), id, Executed).(
      receipts := s.receipts + [ReceiptRow(data, prev, receiptHash)],
      ledger := s.ledger + [LedgerRow(block, prevLedger, c.ledgerHash(block, prevLedger))])
  }

  function PolicyName(policyId: string): string {
    "policy:" + policyId
  }

  function Undecided(s: Db, id: string): Answer {
    if id !in s.intents then NotFound
    else if s.intents[id].status != Pending then AlreadyDecided(s.intents[id].status)
    else Done
  }

  function ExecuteAnswer(c: Crypto, s: Db, id: string): Answer {
    if id !in s.intents then NotFound
    else if s.intents[id].status != Approved then Forbidden("not approved")
    else if |ApprovalsOf(s, id)| == 0 then Forbidden("no signature")
    else
      var row := ApprovalsOf(s, id)[0];
      if c.genuine(ApprovalData(id, s.intents[id].intentHash, true, row.decidedBy), row.signature) then Done
      else Forbidden("invalid signature")
  }

  function Step(c: Crypto, s: Db, op: Op): (Db, Answer) {
    match op
    case Create(id, action, who, hash, at) =>
      (s.(intents := s.intents[id := Intent(action, who, hash, Pending, at)]), Done)
    case Approve(id, who, at) =>
      var a := Undecided(s, id);
      (if a.Done? then Decide(c, s, id, true, who, at) else s, a)
    case Deny(id, who, at) =>
      var a := Undecided(s, id);
      (if a.Done? then Log(Decide(c, s, id, false, who, at), id, false, "denied by human operator") else s, a)
    case Execute(id, ids) =>
      var a := ExecuteAnswer(c, s, id);
      (match a
       case Done =>
         var row := ApprovalsOf(s, id)[0];
         Carry(c, s, id, row.decidedBy, row.at, false, ids)
       case Forbidden(why) => Log(s, id, false, why)
       case _ => s, a)
    case AutoApprove(id, policyId, ids) =>
      var a := Undecided(s, id);
      (if a.Done?
       then Carry(c, Decide(c, s, id, true, PolicyName(policyId), ids.now), id, PolicyName(policyId), ids.now, true,
         ids)
       else s, a)
    case AutoDeny(id, policyId, at) =>
      var a := Undecided(s, id);
      (if a.Done? then Log(Decide(c, s, id, false, PolicyName(policyId), at), id, false, "auto-denied by policy")
       else s, a)
  }

  // ---------------------------------------------------------------------
  // What every operation keeps
  // ---------------------------------------------------------------------

  /** The one approval row of a decided intent, and that its signature checks. */
  ghost predicate DecidedOnce(c: Crypto, s: Db, id: string, approved: bool)
    requires id in s.intents
  {
    var rows := ApprovalsOf(s, id);
    |rows| == 1 && rows[0].approved == approved &&
    rows[0].signature == c.sign(ApprovalData(id, s.intents[id].intentHash, approved, rows[0].decidedBy))
  }

  ghost predicate NeverCarried(s: Db, id: string) {
    |ReceiptsOf(s, id)| == 0 && |LedgerOf(s, id)| == 0 && |SuccessesOf(s, id)| == 0
  }

  /** Exactly one receipt, one ledger row and one successful execution, sharing a receipt hash. */
  ghost predicate CarriedOnce(s: Db, id: string) {
    |ReceiptsOf(s, id)| == 1 && |LedgerOf(s, id)| == 1 && |SuccessesOf(s, id)| == 1 &&
    LedgerOf(s, id)[0].data.receiptHash == ReceiptsOf(s, id)[0].receiptHash
  }

  /** The receipt names the intent's own action and requester and the approver of record. */
  ghost predicate ReceiptTells(s: Db, id: string)
    requires id in s.intents && |ReceiptsOf(s, id)| == 1 && |ApprovalsOf(s, id)| == 1
  {
    var data := ReceiptsOf(s, id)[0].data;
    data.action == s.intents[id].action && data.requestedBy == s.intents[id].requestedBy &&
    data.approvedBy == ApprovalsOf(s, id)[0].decidedBy
  }

  ghost predicate IntentInv(c: Crypto, s: Db, id: string) {
    if id !in s.intents then |ApprovalsOf(s, id)| == 0 && NeverCarried(s, id)
    else
      match s.intents[id].status
      case Pending => |ApprovalsOf(s, id)| == 0 && NeverCarried(s, id)
      case Approved => DecidedOnce(c, s, id, true) && NeverCarried(s, id)
      case Denied => DecidedOnce(c, s, id, false) && NeverCarried(s, id)
      case Executed => DecidedOnce(c, s, id, true) && CarriedOnce(s, id) && ReceiptTells(s, id)
  }

  /** Links can be followed in the tables. The other half, that each row carries the hash of
      what was hashed for it, is about the writer: the tables do not keep every hashed field
      (auto, the execution time), so a reader cannot recompute it. */
  ghost predicate ChainsIntact(c: Crypto, s: Db) {
    Intact(ReceiptChain(c), ANCHOR, s.receipts) && Intact(LedgerChain(c), ANCHOR, s.ledger)
  }

  ghost predicate Inv(c: Crypto, s: Db) {
    ChainsIntact(c, s) && forall id :: IntentInv(c, s, id)
  }

  /** The rows of an intent in one table have not changed. */
  ghost predicate SameRows(s: Db, t: Db, id: string) {
    ApprovalsOf(s, id) == ApprovalsOf(t, id) && ReceiptsOf(s, id) == ReceiptsOf(t, id) &&
    LedgerOf(s, id) == LedgerOf(t, id) && SuccessesOf(s, id) == SuccessesOf(t, id)
  }

  lemma SameRowsKeepInv(c: Crypto, s: Db, t: Db, id: string)
    requires IntentInv(c, s, id) && SameRows(s, t, id)
    requires (id in s.intents <==> id in t.intents) && (id in s.intents ==> s.intents[id] == t.intents[id])
    ensures IntentInv(c, t, id)
  {
  }

  function NewApproval(c: Crypto, s: Db, id: string, approved: bool, who: string, at: string): ApprovalRow
    requires id in s.intents
  {
    ApprovalRow(id, approved, who, c.sign(ApprovalData(id, s.intents[id].intentHash, approved, who)), at)
  }

  lemma DecideRows(c: Crypto, s: Db, id: string, approved: bool, who: string, at: string, other: string)
    requires id in s.intents
    ensures var t, row := Decide(c, s, id, approved, who, at), NewApproval(c, s, id, approved, who, at);
      ReceiptsOf(s, other) == ReceiptsOf(t, other) && LedgerOf(s, other) == LedgerOf(t, other) &&
      SuccessesOf(s, other) == SuccessesOf(t, other) &&
      ApprovalsOf(t, other) == if other == id then ApprovalsOf(s, other) + [row] else ApprovalsOf(s, other)
  {
    OfAppend((r: ApprovalRow) => r.intentId, s.approvals, NewApproval(c, s, id, approved, who, at), other);
  }

  lemma LogRows(s: Db, id: string, success: bool, detail: string, other: string)
    ensures var t := Log(s, id, success, detail);
      ReceiptsOf(s, other) == ReceiptsOf(t, other) && LedgerOf(s, other) == LedgerOf(t, other) &&
      ApprovalsOf(s, other) == ApprovalsOf(t, other) &&
      SuccessesOf(t, other) ==
        if success && other == id then SuccessesOf(s, other) + [ExecutionRow(id, true, detail)]
        else SuccessesOf(s, other)
  {
    var row := ExecutionRow(id, success, detail);
    OfAppend(SuccessKey, s.executions, row, "+" + other);
    assert SuccessKey(row)[1..] == id && ("+" + other)[1..] == other;
    assert SuccessKey(row)[0] == (if success then '+' else '-') && ("+" + other)[0] == '+';
  }

  function NewReceipt(c: Crypto, s: Db, id: string, who: string, approvedAt: string, auto: bool, ids: Ids): ReceiptRow
    requires id in s.intents
  {
    var i := s.intents[id];
    var data := ReceiptData(ids.receiptId, id, i.action, i.requestedBy, who, auto, i.createdAt, approvedAt, ids.now);
    var prev := Tip(ReceiptChain(c), ANCHOR, s.receipts);
    ReceiptRow(data, prev, c.receiptHash(data, prev))
  }

  function NewLedger(c: Crypto, s: Db, id: string, receiptHash: string, auto: bool, ids: Ids): LedgerRow
    requires id in s.intents
  {
    var block := LedgerData(ids.blockId, id, s.intents[id].action, auto, receiptHash, ids.now);
    var prev := Tip(LedgerChain(c), ANCHOR, s.ledger);
    LedgerRow(block, prev, c.ledgerHash(block, prev))
  }

  lemma CarryRows(c: Crypto, s: Db, id: string, who: string, approvedAt: string, auto: bool, ids: Ids, other: string)
    requires id in s.intents
    ensures var t := Carry(c, s, id, who, approvedAt, auto, ids);
      var receipt := NewReceipt(c, s, id, who, approvedAt, auto, ids);
      var block := NewLedger(c, s, id, receipt.receiptHash, auto, ids);
      ApprovalsOf(t, other) == ApprovalsOf(s, other) &&
      (if other == id
       then ReceiptsOf(t, other) == ReceiptsOf(s, other) + [receipt]
         && LedgerOf(t, other) == LedgerOf(s, other) + [block]
         && |SuccessesOf(t, other)| == |SuccessesOf(s, other)| + 1
       else SameRows(s, t, other))
  {
    var receipt := NewReceipt(c, s, id, who, approvedAt, auto, ids);
    LogRows(s, id, true, s.intents[id].action, other);
    OfAppend((r: ReceiptRow) => r.data.intentId, s.receipts, receipt, other);
    OfAppend((r: LedgerRow) => r.data.intentId, s.ledger, NewLedger(c, s, id, receipt.receiptHash, auto, ids), other);
  }

  lemma DecideKeepsInv(c: Crypto, s: Db, id: string, approved: bool, who: string, at: string)
    requires Inv(c, s) && id in s.intents && s.intents[id].status == Pending
    ensures Inv(c, Decide(c, s, id, approved, who, at))
  {
    var t := Decide(c, s, id, approved, who, at);
    forall other ensures IntentInv(c, t, other) {
      assert IntentInv(c, s, other);
      DecideRows(c, s, id, approved, who, at, other);
      if other != id {
        SameRowsKeepInv(c, s, t, other);
      }
    }
  }

  lemma LogKeepsInv(c: Crypto, s: Db, id: string, detail: string)
    requires Inv(c, s)
    ensures Inv(c, Log(s, id, false, detail))
  {
    var t := Log(s, id, false, detail);
    forall other ensures IntentInv(c, t, other) {
      assert IntentInv(c, s, other);
      LogRows(s, id, false, detail, other);
      SameRowsKeepInv(c, s, t, other);
    }
  }

  lemma CarryKeepsChains(c: Crypto, s: Db, id: string, who: string, approvedAt: string, auto: bool, ids: Ids)
    requires ChainsIntact(c, s) && id in s.intents
    ensures ChainsIntact(c, Carry(c, s, id, who, approvedAt, auto, ids))
  {
    var receipt := NewReceipt(c, s, id, who, approvedAt, auto, ids);
    IntactAppend(ReceiptChain(c), ANCHOR, s.receipts, receipt);
    IntactAppend(LedgerChain(c), ANCHOR, s.ledger, NewLedger(c, s, id, receipt.receiptHash, auto, ids));
  }

  lemma CarryKeepsInv(c: Crypto, s: Db, id: string, who: string, approvedAt: string, auto: bool, ids: Ids)
    requires Inv(c, s) && id in s.intents && s.intents[id].status == Approved
    requires |ApprovalsOf(s, id)| == 1 && ApprovalsOf(s, id)[0].decidedBy == who
    ensures Inv(c, Carry(c, s, id, who, approvedAt, auto, ids))
  {
    var t := Carry(c, s, id, who, approvedAt, auto, ids);
    CarryKeepsChains(c, s, id, who, approvedAt, auto, ids);
    forall other ensures IntentInv(c, t, other) {
      assert IntentInv(c, s, other);
      CarryRows(c, s, id, who, approvedAt, auto, ids, other);
      if other != id {
        SameRowsKeepInv(c, s, t, other);
      }
    }
  }

  lemma CreateKeepsInv(c: Crypto, s: Db, op: Op)
    requires Inv(c, s) && op.Create? && op.id !in s.intents
    ensures Inv(c, Step(c, s, op).0)
  {
    var t := Step(c, s, op).0;
    forall other ensures IntentInv(c, t, other) {
      assert IntentInv(c, s, other);
    }
  }

  /** A created intent gets an id that is not in use. */
  ghost predicate FreshId(s: Db, op: Op) {
    op.Create? ==> op.id !in s.intents
  }

  lemma StepKeepsInv(c: Crypto, s: Db, op: Op)
    requires Inv(c, s) && FreshId(s, op)
    ensures Inv(c, Step(c, s, op).0)
  {
    match op
    case Create(_, _, _, _, _) =>
      CreateKeepsInv(c, s, op);
    case Approve(id, who, at) =>
      if Undecided(s, id).Done? { DecideKeepsInv(c, s, id, true, who, at); }
    case Deny(id, who, at) =>
      if Undecided(s, id).Done? {
        DecideKeepsInv(c, s, id, false, who, at);
        LogKeepsInv(c, Decide(c, s, id, false, who, at), id, "denied by human operator");
      }
    case Execute(id, ids) =>
      match ExecuteAnswer(c, s, id) {
        case Done =>
          var row := ApprovalsOf(s, id)[0];
          assert IntentInv(c, s, id);
          CarryKeepsInv(c, s, id, row.decidedBy, row.at, false, ids);
        case Forbidden(why) => LogKeepsInv(c, s, id, why);
        case _ =>
      }
    case AutoApprove(id, policyId, ids) =>
      if Undecided(s, id).Done? {
        DecideKeepsInv(c, s, id, true, PolicyName(policyId), ids.now);
        assert IntentInv(c, s, id);
        DecideRows(c, s, id, true, PolicyName(policyId), ids.now, id);
        CarryKeepsInv(c, Decide(c, s, id, true, PolicyName(policyId), ids.now), id, PolicyName(policyId), ids.now,
          true, ids);
      }
    case AutoDeny(id, policyId, at) =>
      if Undecided(s, id).Done? {
        DecideKeepsInv(c, s, id, false, PolicyName(policyId), at);
        LogKeepsInv(c, Decide(c, s, id, false, PolicyName(policyId), at), id, "auto-denied by policy");
      }
  }

  // ---------------------------------------------------------------------
  // Runs
  // ---------------------------------------------------------------------

  ghost predicate IsRun(c: Crypto, states: seq<Db>, ops: seq<Op>) {
    |states| == |ops| + 1 && states[0] == EMPTY && (forall i | 0 <= i < |ops| :: FreshId(states[i], ops[i])) &&
    forall i {:trigger Step(c, states[i], ops[i])} | 0 <= i < |ops| :: states[i + 1] == Step(c, states[i], ops[i]).0
  }

  lemma RunStepKeepsInv(c: Crypto, states: seq<Db>, ops: seq<Op>, i: nat)
    requires IsRun(c, states, ops) && i < |ops| && Inv(c, states[i])
    ensures Inv(c, states[i + 1])
  {
    StepKeepsInv(c, states[i], ops[i]);
  }

  lemma {:induction false} EveryRunKeepsInv(c: Crypto, states: seq<Db>, ops: seq<Op>, n: nat)
    requires IsRun(c, states, ops) && n <= |ops|
    ensures Inv(c, states[n])
  {
    if n > 0 {
      EveryRunKeepsInv(c, states, ops, n - 1);
      RunStepKeepsInv(c, states, ops, n - 1);
    }
  }

  /** In every serial run: an intent has one approval row exactly if it is decided; one
      receipt, one ledger row and one successful execution exactly if it is executed, and
      none of them otherwise; the two rows share the receipt's hash, the receipt names the
      approver of record; both chains link, and each row carries the hash that was computed
      when it was written. */
  lemma ExecutedIffRecorded(c: Crypto, states: seq<Db>, ops: seq<Op>, n: nat, id: string)
    requires IsRun(c, states, ops) && n <= |ops| && id in states[n].intents
    ensures var s := states[n];
      var status := s.intents[id].status;
      |ApprovalsOf(s, id)| == (if status.Pending? then 0 else 1) &&
      |ReceiptsOf(s, id)| == |LedgerOf(s, id)| == |SuccessesOf(s, id)| == (if status.Executed? then 1 else 0) &&
      (!status.Pending? ==> (ApprovalsOf(s, id)[0].approved <==> !status.Denied?)) &&
      (status.Executed? ==>
        LedgerOf(s, id)[0].data.receiptHash == ReceiptsOf(s, id)[0].receiptHash &&
        ReceiptsOf(s, id)[0].data.approvedBy == ApprovalsOf(s, id)[0].decidedBy &&
        ReceiptsOf(s, id)[0].data.action == s.intents[id].action &&
        ReceiptsOf(s, id)[0].data.requestedBy == s.intents[id].requestedBy)
    ensures Intact(ReceiptChain(c), ANCHOR, states[n].receipts) && Intact(LedgerChain(c), ANCHOR, states[n].ledger)
  {
    EveryRunKeepsInv(c, states, ops, n);
    assert IntentInv(c, states[n], id);
  }

  /** Executing an approved intent always succeeds, and no other intent is executed. */
  lemma ExecuteSucceedsIffApproved(c: Crypto, s: Db, id: string)
    requires SignaturesCheck(c) && Inv(c, s)
    ensures ExecuteAnswer(c, s, id).Done? <==> id in s.intents && s.intents[id].status == Approved
  {
    assert IntentInv(c, s, id);
  }

  /** Pending is left only for approved, denied or executed; approved only for executed; and
      denied and executed are never left. */
  predicate MayFollow(before: Status, after: Status) {
    before == after || before.Pending? || (before.Approved? && after.Executed?)
  }

  lemma LifecycleMovesForward(c: Crypto, s: Db, op: Op, id: string)
    requires FreshId(s, op) && id in s.intents
    ensures id in Step(c, s, op).0.intents
    ensures MayFollow(s.intents[id].status, Step(c, s, op).0.intents[id].status)
    ensures Step(c, s, op).0.intents[id] == s.intents[id].(status := Step(c, s, op).0.intents[id].status)
  {
  }

  // ---------------------------------------------------------------------
  // Back to the operations
  // ---------------------------------------------------------------------

  /** Which operation makes an intent what it is. */
  lemma StepSettles(c: Crypto, s: Db, op: Op, id: string)
    requires FreshId(s, op) && id in s.intents
    ensures var (t, answer) := Step(c, s, op);
      id in t.intents &&
      t.intents[id].status ==
        if op.id != id || answer != Done then s.intents[id].status
        else match op
             case Approve(_, _, _) => Approved
             case Deny(_, _, _) => Denied
             case Execute(_, _) => Executed
             case AutoApprove(_, _, _) => Executed
             case AutoDeny(_, _, _) => Denied
             case Create(_, _, _, _, _) => s.intents[id].status
    ensures op.id == id && Step(c, s, op).1 == Done && !op.Create? ==>
      s.intents[id].status == if op.Execute? then Approved else Pending
  {
  }

  lemma StepCreates(c: Crypto, s: Db, op: Op, id: string)
    requires id !in s.intents && id in Step(c, s, op).0.intents
    ensures op.Create? && op.id == id
    ensures Step(c, s, op).0.intents[id] == Intent(op.action, op.requestedBy, op.intentHash, Pending, op.createdAt)
  {
  }

  lemma RunStep(c: Crypto, states: seq<Db>, ops: seq<Op>, i: nat)
    requires IsRun(c, states, ops) && i < |ops|
    ensures states[i + 1] == Step(c, states[i], ops[i]).0 && FreshId(states[i], ops[i])
  {
  }

  /** Every intent came from one Create and says what that said. */
  lemma {:induction false} CreatedBy(c: Crypto, states: seq<Db>, ops: seq<Op>, n: nat, id: string) returns (k: nat)
    requires IsRun(c, states, ops) && n <= |ops| && id in states[n].intents
    ensures k < n && ops[k].Create? && ops[k].id == id
    ensures var i := states[n].intents[id];
      i.action == ops[k].action && i.requestedBy == ops[k].requestedBy && i.intentHash == ops[k].intentHash &&
      i.createdAt == ops[k].createdAt
  {
    RunStep(c, states, ops, n - 1);
    if id in states[n - 1].intents {
      k := CreatedBy(c, states, ops, n - 1, id);
      LifecycleMovesForward(c, states[n - 1], ops[n - 1], id);
    } else {
      k := n - 1;
      StepCreates(c, states[n - 1], ops[n - 1], id);
    }
  }

  /** An intent is approved or executed only after an approval of it, by a person or a policy,
      that answered Done. */
  lemma {:induction false} ApprovedBy(c: Crypto, states: seq<Db>, ops: seq<Op>, n: nat, id: string) returns (m: nat)
    requires IsRun(c, states, ops) && n <= |ops| && id in states[n].intents
    requires states[n].intents[id].status == Approved || states[n].intents[id].status == Executed
    ensures m < n && (ops[m].Approve? || ops[m].AutoApprove?) && ops[m].id == id
    ensures Step(c, states[m], ops[m]).1 == Done
  {
    RunStep(c, states, ops, n - 1);
    if id !in states[n - 1].intents {
      StepCreates(c, states[n - 1], ops[n - 1], id);
      assert false;
    }
    StepSettles(c, states[n - 1], ops[n - 1], id);
    if states[n - 1].intents[id].status == Approved || states[n - 1].intents[id].status == Executed {
      m := ApprovedBy(c, states, ops, n - 1, id);
    } else {
      m := n - 1;
    }
  }

  /** And executed only after an Execute, or an approval by policy, that answered Done. */
  lemma {:induction false} ExecutedBy(c: Crypto, states: seq<Db>, ops: seq<Op>, n: nat, id: string) returns (e: nat)
    requires IsRun(c, states, ops) && n <= |ops| && id in states[n].intents && states[n].intents[id].status == Executed
    ensures e < n && (ops[e].Execute? || ops[e].AutoApprove?) && ops[e].id == id
    ensures Step(c, states[e], ops[e]).1 == Done
  {
    RunStep(c, states, ops, n - 1);
    if id !in states[n - 1].intents {
      StepCreates(c, states[n - 1], ops[n - 1], id);
      assert false;
    }
    StepSettles(c, states[n - 1], ops[n - 1], id);
    if states[n - 1].intents[id].status == Executed {
      e := ExecutedBy(c, states, ops, n - 1, id);
    } else {
      e := n - 1;
    }
  }

  lemma {:induction false} StaysDenied(c: Crypto, states: seq<Db>, ops: seq<Op>, m: nat, n: nat, id: string)
    requires IsRun(c, states, ops) && m < n <= |ops|
    requires (ops[m].Deny? || ops[m].AutoDeny?) && ops[m].id == id && Step(c, states[m], ops[m]).1 == Done
    ensures id in states[n].intents && states[n].intents[id].status == Denied
    decreases n
  {
    RunStep(c, states, ops, n - 1);
    if n > m + 1 {
      StaysDenied(c, states, ops, m, n - 1, id);
    } else {
      assert id in states[m].intents;
    }
    StepSettles(c, states[n - 1], ops[n - 1], id);
  }

  /** After a refusal that answered Done, by a person or a policy, the intent stays denied,
      nothing is ever carried out for it, and executing it is forbidden. */
  lemma DeniedForGood(c: Crypto, states: seq<Db>, ops: seq<Op>, m: nat, n: nat, id: string, ids: Ids)
    requires IsRun(c, states, ops) && m < n <= |ops|
    requires (ops[m].Deny? || ops[m].AutoDeny?) && ops[m].id == id && Step(c, states[m], ops[m]).1 == Done
    ensures id in states[n].intents && states[n].intents[id].status == Denied
    ensures SuccessesOf(states[n], id) == [] && ReceiptsOf(states[n], id) == [] && LedgerOf(states[n], id) == []
    ensures Step(c, states[n], Execute(id, ids)).1.Forbidden?
  {
    StaysDenied(c, states, ops, m, n, id);
    EveryRunKeepsInv(c, states, ops, n);
    assert IntentInv(c, states[n], id);
  }

  /** A pending intent that is approved answers Done, and so does its execution. */
  lemma ApprovedThenExecutes(c: Crypto, s: Db, id: string, who: string, at: string, ids: Ids)
    requires SignaturesCheck(c) && Inv(c, s) && id in s.intents && s.intents[id].status == Pending
    ensures var (t, answer) := Step(c, s, Approve(id, who, at));
      answer == Done && id in t.intents && t.intents[id].status == Approved && Step(c, t, Execute(id, ids)).1 == Done
  {
    var t := Step(c, s, Approve(id, who, at)).0;
    StepKeepsInv(c, s, Approve(id, who, at));
    StepSettles(c, s, Approve(id, who, at), id);
    ExecuteSucceedsIffApproved(c, t, id);
  }

  /** Nothing else is needed: an intent that is created, approved and executed leaves one
      receipt, which names what was asked for, who asked and who approved. */
  lemma CreatedApprovedExecuted(c: Crypto, s: Db, a: Op, b: Op, ids: Ids)
    requires SignaturesCheck(c) && Inv(c, s) && a.Create? && b.Approve? && a.id == b.id && FreshId(s, a)
    ensures var s1 := Step(c, s, a).0;
      var (s2, approved) := Step(c, s1, b);
      var (s3, executed) := Step(c, s2, Execute(a.id, ids));
      approved == Done && executed == Done && |ReceiptsOf(s3, a.id)| == 1 &&
      var data := ReceiptsOf(s3, a.id)[0].data;
      data.action == a.action && data.requestedBy == a.requestedBy && data.approvedBy == b.decidedBy
  {
    var s1 := Step(c, s, a).0;
    StepKeepsInv(c, s, a);
    ApprovedThenExecutes(c, s1, a.id, b.decidedBy, b.at, ids);
    var s2 := Step(c, s1, b).0;
    StepKeepsInv(c, s1, b);
    assert IntentInv(c, s1, a.id);
    StepDecides(c, s1, b, a.id);
    var s3 := Step(c, s2, Execute(a.id, ids)).0;
    StepKeepsInv(c, s2, Execute(a.id, ids));
    StepSettles(c, s2, Execute(a.id, ids), a.id);
    StepKeepsApprovals(c, s2, Execute(a.id, ids), a.id);
    assert IntentInv(c, s3, a.id);
  }

  lemma StepKeepsApprovals(c: Crypto, s: Db, op: Op, id: string)
    requires FreshId(s, op) && id in s.intents && s.intents[id].status != Pending
    ensures ApprovalsOf(Step(c, s, op).0, id) == ApprovalsOf(s, id)
  {
    match op
    case Approve(j, who, at) =>
      if Undecided(s, j).Done? { DecideRows(c, s, j, true, who, at, id); }
    case Deny(j, who, at) =>
      if Undecided(s, j).Done? { DecideRows(c, s, j, false, who, at, id); }
    case AutoApprove(j, p, ids) =>
      if Undecided(s, j).Done? { DecideRows(c, s, j, true, PolicyName(p), ids.now, id); }
    case AutoDeny(j, p, at) =>
      if Undecided(s, j).Done? { DecideRows(c, s, j, false, PolicyName(p), at, id); }
    case _ =>
  }

  lemma StepDecides(c: Crypto, s: Db, op: Op, id: string)
    requires op.id == id && Step(c, s, op).1 == Done && !op.Create? && !op.Execute?
    requires ApprovalsOf(s, id) == []
    ensures id in s.intents
    ensures var rows := ApprovalsOf(Step(c, s, op).0, id);
      |rows| == 1 && (rows[0].approved <==> op.Approve? || op.AutoApprove?) &&
      rows[0].decidedBy == (if op.Approve? || op.Deny? then op.decidedBy else "policy:" + op.policyId) &&
      rows[0].at == (if op.AutoApprove? then op.ids.now else op.at)
  {
    match op
    case Approve(j, who, at) => DecideRows(c, s, j, true, who, at, id);
    case Deny(j, who, at) => DecideRows(c, s, j, false, who, at, id);
    case AutoApprove(j, p, ids) => DecideRows(c, s, j, true, PolicyName(p), ids.now, id);
    case AutoDeny(j, p, at) => DecideRows(c, s, j, false, PolicyName(p), at, id);
  }

  /** The one approval row of a decided intent names who decided, in the operation that did. */
  lemma {:induction false} DecidedBy(c: Crypto, states: seq<Db>, ops: seq<Op>, n: nat, id: string) returns (m: nat)
    requires IsRun(c, states, ops) && n <= |ops| && id in states[n].intents && states[n].intents[id].status != Pending
    ensures m < n && ops[m].id == id && !ops[m].Create? && !ops[m].Execute? && Step(c, states[m], ops[m]).1 == Done
    ensures var rows := ApprovalsOf(states[n], id);
      |rows| == 1 && (rows[0].approved <==> ops[m].Approve? || ops[m].AutoApprove?) &&
      rows[0].decidedBy == (if ops[m].Approve? || ops[m].Deny? then ops[m].decidedBy else "policy:" + ops[m].policyId)
  {
    RunStep(c, states, ops, n - 1);
    if id !in states[n - 1].intents {
      StepCreates(c, states[n - 1], ops[n - 1], id);
      assert false;
    }
    StepSettles(c, states[n - 1], ops[n - 1], id);
    if states[n - 1].intents[id].status != Pending {
      m := DecidedBy(c, states, ops, n - 1, id);
      StepKeepsApprovals(c, states[n - 1], ops[n - 1], id);
    } else {
      m := n - 1;
      EveryRunKeepsInv(c, states, ops, n - 1);
      assert IntentInv(c, states[n - 1], id);
      StepDecides(c, states[n - 1], ops[n - 1], id);
    }
  }

  /** Whatever rows the tables hold, an approval row that does not check stops the execution:
      no receipt and no ledger row is written. */
  lemma ForgedApprovalStopsExecution(c: Crypto, s: Db, id: string, ids: Ids)
    requires id in s.intents && |ApprovalsOf(s, id)| > 0
    requires var row := ApprovalsOf(s, id)[0];
      !c.genuine(ApprovalData(id, s.intents[id].intentHash, true, row.decidedBy), row.signature)
    ensures var (t, answer) := Step(c, s, Execute(id, ids));
      answer.Forbidden? && t.receipts == s.receipts && t.ledger == s.ledger && t.intents == s.intents &&
      SuccessesOf(t, id) == SuccessesOf(s, id)
  {
    var answer := ExecuteAnswer(c, s, id);
    LogRows(s, id, false, answer.why, id);
  }

  /** Any last part of an intact ledger links. */
  lemma WindowLinks(c: Crypto, ledger: seq<LedgerRow>, from: nat)
    requires from <= |ledger| && Intact(LedgerChain(c), ANCHOR, ledger)
    ensures var w := ledger[from..];
      forall k | 0 < k < |w| :: w[k].previousHash == w[k - 1].currentHash
  {
    var view := LedgerChain(c);
    var w := ledger[from..];
    forall k | 0 < k < |w| ensures w[k].previousHash == w[k - 1].currentHash {
      assert view.prev(ledger[from + k]) == TipAt(view, ANCHOR, ledger, from + k);
    }
  }

  // ---------------------------------------------------------------------
  // The engine
  // ---------------------------------------------------------------------

  class Engine {
    const crypto: Crypto
    var intents: map<string, Intent>
    var approvals: seq<ApprovalRow>
    var executions: seq<ExecutionRow>
    var receipts: seq<ReceiptRow>
    var ledger: seq<LedgerRow>

    ghost function Snapshot(): Db
      reads this
    {
      Db(intents, approvals, executions, receipts, ledger)
    }

    constructor (c: Crypto)
      ensures crypto == c && Snapshot() == EMPTY
    {
      crypto := c;
      intents := map[];
      approvals := [];
      executions := [];
      receipts := [];
      ledger := [];
    }

    method CreateIntent(id: string, action: string, requestedBy: string, intentHash: string, createdAt: string)
      modifies this`intents
      ensures Snapshot() == Step(crypto, old(Snapshot()), Create(id, action, requestedBy, intentHash, createdAt)).0
    {
      intents := intents[id := Intent(action, requestedBy, intentHash, Pending, createdAt)];
    }

    /** The shared part of the four deciding operations. */
    method Settle(id: string, approved: bool, who: string, at: string) returns (answer: Answer)
      modifies this`intents, this`approvals
      ensures answer == Undecided(old(Snapshot()), id)
      ensures Snapshot() == if answer.Done? then Decide(crypto, old(Snapshot()), id, approved, who, at)
                            else old(Snapshot())
    {
      if id !in intents {
        return NotFound;
      }
      var intent := intents[id];
      if intent.status != Pending {
        return AlreadyDecided(intent.status);
      }
      var sig := crypto.sign(ApprovalData(id, intent.intentHash, approved, who));
      approvals := approvals + [ApprovalRow(id, approved, who, sig, at)];
      intents := intents[id := intent.(status := if approved then Approved else Denied)];
      answer := Done;
    }

    method ApproveIntent(id: string, decidedBy: string, at: string) returns (answer: Answer)
      modifies this
      ensures (Snapshot(), answer) == Step(crypto, old(Snapshot()), Approve(id, decidedBy, at))
    {
      answer := Settle(id, true, decidedBy, at);
    }

    method DenyIntent(id: string, decidedBy: string, at: string) returns (answer: Answer)
      modifies this
      ensures (Snapshot(), answer) == Step(crypto, old(Snapshot()), Deny(id, decidedBy, at))
    {
      answer := Settle(id, false, decidedBy, at);
      if answer.Done? {
        executions := executions + [ExecutionRow(id, false, "denied by human operator")];
      }
    }

    method AutoDenyByPolicy(id: string, policyId: string, at: string) returns (answer: Answer)
      modifies this
      ensures (Snapshot(), answer) == Step(crypto, old(Snapshot()), AutoDeny(id, policyId, at))
    {
      answer := Settle(id, false, PolicyName(policyId), at);
      if answer.Done? {
        executions := executions + [ExecutionRow(id, false, "auto-denied by policy")];
      }
    }

    method RecordExecution(id: string, who: string, approvedAt: string, auto: bool, ids: Ids)
      requires id in intents
      modifies this
      ensures Snapshot() == Carry(crypto, old(Snapshot()), id, who, approvedAt, auto, ids)
    {
      var intent := intents[id];
      executions := executions + [ExecutionRow(id, true, intent.action)];
      intents := intents[id := intent.(status := Executed)];
      var data := ReceiptData(ids.receiptId, id, intent.action, intent.requestedBy, who, auto, intent.createdAt,
        approvedAt, ids.now);
      var previous := if |receipts| > 0 then receipts[|receipts| - 1].receiptHash else ANCHOR;
      var receiptHash := crypto.receiptHash(data, previous);
      receipts := receipts + [ReceiptRow(data, previous, receiptHash)];
      var block := LedgerData(ids.blockId, id, intent.action, auto, receiptHash, ids.now);
      var previousBlock := if |ledger| > 0 then ledger[|ledger| - 1].currentHash else ANCHOR;
      ledger := ledger + [LedgerRow(block, previousBlock, crypto.ledgerHash(block, previousBlock))];
    }

    method AutoApproveByPolicy(id: string, policyId: string, ids: Ids) returns (answer: Answer)
      modifies this
      ensures (Snapshot(), answer) == Step(crypto, old(Snapshot()), AutoApprove(id, policyId, ids))
    {
      answer := Settle(id, true, PolicyName(policyId), ids.now);
      if answer.Done? {
        RecordExecution(id, PolicyName(policyId), ids.now, true, ids);
      }
    }

    /** executeIntent: fails closed unless the intent is approved and its approval checks. */
    method ExecuteIntent(id: string, ids: Ids) returns (answer: Answer)
      modifies this
      ensures (Snapshot(), answer) == Step(crypto, old(Snapshot()), Execute(id, ids))
    {
      if id !in intents {
        return NotFound;
      }
      if intents[id].status != Approved {
        executions := executions + [ExecutionRow(id, false, "not approved")];
        return Forbidden("not approved");
      }
      var rows := Of((r: ApprovalRow) => r.intentId, approvals, id);
      if |rows| == 0 {
        executions := executions + [ExecutionRow(id, false, "no signature")];
        return Forbidden("no signature");
      }
      var row := rows[0];
      if !crypto.genuine(ApprovalData(id, intents[id].intentHash, true, row.decidedBy), row.signature) {
        executions := executions + [ExecutionRow(id, false, "invalid signature")];
        return Forbidden("invalid signature");
      }
      RecordExecution(id, row.decidedBy, row.at, false, ids);
      answer := Done;
    }

    /** getLedgerChain: the last limit rows, oldest first, and whether they link. In any
        state the engine reaches they do. */
    method GetLedgerChain(limit: nat) returns (entries: seq<LedgerRow>, valid: bool)
      ensures entries == ledger[if |ledger| > limit then |ledger| - limit else 0..]
      ensures valid <==> forall i | 0 < i < |entries| :: entries[i].previousHash == entries[i - 1].currentHash
      ensures Intact(LedgerChain(crypto), ANCHOR, ledger) ==> valid
    {
      var from := if |ledger| > limit then |ledger| - limit else 0;
      entries := ledger[from..];
      valid := true;
      var i := 1;
      while i < |entries|
        invariant 1 <= i
        invariant valid <==> forall k | 0 < k < i && k < |entries| ::
          entries[k].previousHash == entries[k - 1].currentHash
      {
        if entries[i].previousHash != entries[i - 1].currentHash {
          valid := false;
        }
        i := i + 1;
      }
      if Intact(LedgerChain(crypto), ANCHOR, ledger) {
        WindowLinks(crypto, ledger, from);
      }
    }
  }
}
