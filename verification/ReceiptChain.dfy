/** Canonical receipts, the chain they form, and how the chain is picked up again after
    a restart (legacy/one-app/server/authorityLayer.ts, legacy/one-app/server/driveRestore.ts). */
module ReceiptChain {
  import opened Hashing
  import opened Json
  import opened Wrappers
  import opened Authority

  const ZERO_HASH := "0000000000000000000000000000000000000000000000000000000000000000"

  /** What a receipt records, apart from the chain. */
  datatype Body = Body(
    receiptId: string,
    intentId: string,
    proposerId: string,
    approverId: string,
    tokenId: string,
    action: string,
    success: bool,
    executor: string,
    executionHash: string,
    policyHash: string,
    snapshotHash: string,
    timestampProposed: string,
    timestampApproved: string,
    timestampExecuted: string,
    decisionDeltaMs: Option<int>,
    ledgerEntryId: string
  )

  datatype Receipt = Receipt(body: Body, previousReceiptHash: string, receiptHash: string)

  const RECEIPT_FIELDS := [
    "receipt_id", "intent_id", "proposer_id", "approver_id", "token_id", "action", "status", "executor",
    "execution_hash", "policy_hash", "snapshot_hash", "timestamp_proposed", "timestamp_approved",
    "timestamp_executed", "decision_delta_ms", "ledger_entry_id", "previous_receipt_hash" ]

  function ReceiptValues(b: Body, prev: string): seq<Value> {
    [ String(b.receiptId), String(b.intentId), String(b.proposerId), String(b.approverId), String(b.tokenId),
      String(b.action), String(if b.success then "SUCCESS" else "FAILED"), String(b.executor),
      String(b.executionHash), String(b.policyHash), String(b.snapshotHash), String(b.timestampProposed),
      String(b.timestampApproved), String(b.timestampExecuted),
      if b.decisionDeltaMs.Some? then Integer(b.decisionDeltaMs.value) else Null,
      String(b.ledgerEntryId), String(prev) ]
  }

  /** The outcome that a receipt's hash covers. */
  lemma OutcomeTold(b: Body, prev: string)
    ensures ReceiptValues(b, prev)[6] == String("SUCCESS") <==> b.success
    ensures ReceiptValues(b, prev)[6] == String("FAILED") <==> !b.success
  {
  }

  function ReceiptHash(h: Hash, b: Body, prev: string): string {
    h(Stringify(Record(RECEIPT_FIELDS, ReceiptValues(b, prev))))
  }

  lemma ReceiptFieldsDistinct()
    ensures Distinct(RECEIPT_FIELDS)
  {
  }

  /** The receipt hash binds every field and the link to the receipt before. */
  lemma ReceiptHashBinds(h: Hash, b: Body, p: string, c: Body, q: string)
    requires CollisionFree(h) && ReceiptHash(h, b, p) == ReceiptHash(h, c, q)
    ensures b == c && p == q
  {
    ReceiptFieldsDistinct();
    RecordBinds(RECEIPT_FIELDS, ReceiptValues(b, p), ReceiptValues(c, q));
    SameFirstFields(b, p, c, q);
    SameNextFields(b, p, c, q);
    SameMiddleFields(b, p, c, q);
    SameLastFields(b, p, c, q);
  }

  lemma SameFirstFields(b: Body, p: string, c: Body, q: string)
    requires AllAgree(ReceiptValues(b, p), ReceiptValues(c, q))
    ensures b.receiptId == c.receiptId && b.intentId == c.intentId && b.proposerId == c.proposerId
  {
    var vs, ws := ReceiptValues(b, p), ReceiptValues(c, q);
    assert Agree(vs, ws, 0) && Agree(vs, ws, 1) && Agree(vs, ws, 2);
  }

  lemma SameNextFields(b: Body, p: string, c: Body, q: string)
    requires AllAgree(ReceiptValues(b, p), ReceiptValues(c, q))
    ensures b.approverId == c.approverId && b.tokenId == c.tokenId && b.action == c.action
  {
    var vs, ws := ReceiptValues(b, p), ReceiptValues(c, q);
    assert Agree(vs, ws, 3) && Agree(vs, ws, 4) && Agree(vs, ws, 5);
  }

  lemma SameMiddleFields(b: Body, p: string, c: Body, q: string)
    requires AllAgree(ReceiptValues(b, p), ReceiptValues(c, q))
    ensures b.success == c.success && b.executor == c.executor && b.executionHash == c.executionHash
    ensures b.policyHash == c.policyHash && b.snapshotHash == c.snapshotHash
  {
    var vs, ws := ReceiptValues(b, p), ReceiptValues(c, q);
    assert Agree(vs, ws, 6) && Agree(vs, ws, 7) && Agree(vs, ws, 8) && Agree(vs, ws, 9) && Agree(vs, ws, 10);
    assert |"SUCCESS"| == 7 && |"FAILED"| == 6;
  }

  lemma SameLastFields(b: Body, p: string, c: Body, q: string)
    requires AllAgree(ReceiptValues(b, p), ReceiptValues(c, q))
    ensures b.timestampProposed == c.timestampProposed && b.timestampApproved == c.timestampApproved
    ensures b.timestampExecuted == c.timestampExecuted && b.ledgerEntryId == c.ledgerEntryId && p == q
    ensures b.decisionDeltaMs == c.decisionDeltaMs
  {
    var vs, ws := ReceiptValues(b, p), ReceiptValues(c, q);
    assert Agree(vs, ws, 11) && Agree(vs, ws, 12) && Agree(vs, ws, 13) && Agree(vs, ws, 15) && Agree(vs, ws, 16);
    assert Agree(vs, ws, 14);
    if b.decisionDeltaMs.Some? && c.decisionDeltaMs.Some? {
      DecimalInjective(b.decisionDeltaMs.value, c.decisionDeltaMs.value);
    }
  }

  function Chain(h: Hash): View<Receipt> {
    View((r: Receipt) => r.previousReceiptHash, (r: Receipt) => r.receiptHash,
         (r: Receipt) => ReceiptHash(h, r.body, r.previousReceiptHash))
  }

  function Next(h: Hash, last: string, b: Body): Receipt {
    Receipt(b, last, ReceiptHash(h, b, last))
  }

  /** The receipts of a run that starts from the given last hash. */
  function Generated(h: Hash, last: string, bodies: seq<Body>): (rs: seq<Receipt>)
    ensures |rs| == |bodies|
  {
    if |bodies| == 0 then []
    else
      var before := Generated(h, last, bodies[..|bodies| - 1]);
      before + [Next(h, Tip(Chain(h), last, before), bodies[|bodies| - 1])]
  }

  lemma {:induction false} GeneratedIsIntact(h: Hash, last: string, bodies: seq<Body>)
    ensures Intact(Chain(h), last, Generated(h, last, bodies))
  {
    if |bodies| > 0 {
      var before := bodies[..|bodies| - 1];
      GeneratedIsIntact(h, last, before);
      var rs := Generated(h, last, before);
      IntactAppend(Chain(h), last, rs, Next(h, Tip(Chain(h), last, rs), bodies[|bodies| - 1]));
    }
  }

  // ---------------------------------------------------------------------
  // The verifier over persisted entries
  // ---------------------------------------------------------------------

  /** A break: an entry after the first that does not link to the one before it. */
  predicate BreaksAt(rs: seq<Receipt>, i: nat) {
    0 < i < |rs| && rs[i].previousReceiptHash != rs[i - 1].receiptHash
  }

  predicate Unbroken(rs: seq<Receipt>) {
    forall i | 0 <= i < |rs| :: !BreaksAt(rs, i)
  }

  datatype Verification = Verification(
    valid: bool,
    chainLength: nat,
    firstReceiptId: Option<string>,
    lastReceiptId: Option<string>,
    lastReceiptHash: Option<string>,
    breakAtIndex: Option<nat>
  )

  /** verifyChainIntegrity: valid exactly for a linked list, and otherwise it names the
      least index at which the chain breaks. */
  method VerifyChainIntegrity(rs: seq<Receipt>) returns (r: Verification)
    ensures r.valid <==> Unbroken(rs)
    ensures r.chainLength == |rs|
    ensures r.breakAtIndex.None? <==> r.valid
    ensures r.breakAtIndex.Some? ==>
      BreaksAt(rs, r.breakAtIndex.value) && forall i | 0 <= i < r.breakAtIndex.value :: !BreaksAt(rs, i)
    ensures |rs| == 0 ==> r.firstReceiptId.None? && r.lastReceiptId.None? && r.lastReceiptHash.None?
    ensures |rs| > 0 ==> r.firstReceiptId == Some(rs[0].body.receiptId)
    ensures |rs| > 0 ==> r.lastReceiptId == Some(rs[|rs| - 1].body.receiptId)
    ensures |rs| > 0 ==> r.lastReceiptHash == Some(rs[|rs| - 1].receiptHash)
  {
    if |rs| == 0 {
      return Verification(true, 0, None, None, None, None);
    }
    var last := rs[|rs| - 1];
    var result := Verification(true, |rs|, Some(rs[0].body.receiptId), Some(last.body.receiptId),
      Some(last.receiptHash), None);
    var i := 1;
    while i < |rs|
      invariant 1 <= i <= |rs|
      invariant forall k | 0 <= k < i :: !BreaksAt(rs, k)
    {
      if rs[i].previousReceiptHash != rs[i - 1].receiptHash {
        assert BreaksAt(rs, i);
        return result.(valid := false, breakAtIndex := Some(i));
      }
      i := i + 1;
    }
    r := result;
  }

  lemma IntactIsLinked(h: Hash, last: string, rs: seq<Receipt>)
    requires Intact(Chain(h), last, rs)
    ensures Unbroken(rs) && (|rs| > 0 ==> rs[0].previousReceiptHash == last)
  {
    var view := Chain(h);
    assert forall i | 0 <= i < |rs| :: view.prev(rs[i]) == TipAt(view, last, rs, i);
  }

  // ---------------------------------------------------------------------
  // Restart and restore
  // ---------------------------------------------------------------------

  /** restoreFromDrive: an anchor with a hash wins over the ledger's tail, and only a
      runtime still at genesis takes what was found. */
  function Restored(anchor: Option<string>, entries: seq<Receipt>, current: string): string {
    var found :=
      if anchor.Some? && |anchor.value| > 0 then anchor.value
      else if |entries| > 0 then entries[|entries| - 1].receiptHash
      else "";
    if |found| > 0 && current == ZERO_HASH then found else current
  }

  lemma TipJoin(h: Hash, last: string, before: seq<Receipt>, rest: seq<Receipt>)
    ensures Tip(Chain(h), last, before + rest) == Tip(Chain(h), Tip(Chain(h), last, before), rest)
  {
    if |rest| == 0 {
      assert before + rest == before;
    }
  }

  lemma GeneratedSnoc(h: Hash, last: string, bodies: seq<Body>, b: Body)
    ensures var before := Generated(h, last, bodies);
      Generated(h, last, bodies + [b]) == before + [Next(h, Tip(Chain(h), last, before), b)]
  {
    assert (bodies + [b])[..|bodies|] == bodies;
  }

  /** Two parts of a run, the second from the tip of the first. */
  function Resumed(h: Hash, last: string, xs: seq<Body>, ys: seq<Body>): seq<Receipt> {
    var before := Generated(h, last, xs);
    before + Generated(h, Tip(Chain(h), last, before), ys)
  }

  lemma ResumedSnoc(h: Hash, last: string, xs: seq<Body>, ys: seq<Body>, b: Body)
    ensures var rs := Resumed(h, last, xs, ys);
      Resumed(h, last, xs, ys + [b]) == rs + [Next(h, Tip(Chain(h), last, rs), b)]
  {
    var before := Generated(h, last, xs);
    var tip := Tip(Chain(h), last, before);
    GeneratedSnoc(h, tip, ys, b);
    TipJoin(h, last, before, Generated(h, tip, ys));
  }

  /** A run, and the same run stopped after xs and resumed. */
  ghost predicate Splits(h: Hash, last: string, xs: seq<Body>, ys: seq<Body>) {
    Generated(h, last, xs + ys) == Resumed(h, last, xs, ys)
  }

  lemma SplitSnoc(h: Hash, last: string, xs: seq<Body>, ys: seq<Body>, b: Body)
    requires Splits(h, last, xs, ys)
    ensures Splits(h, last, xs, ys + [b])
  {
    ResumedSnoc(h, last, xs, ys, b);
    GeneratedSnoc(h, last, xs + ys, b);
    assert xs + (ys + [b]) == (xs + ys) + [b];
  }

  lemma SplitsAtStart(h: Hash, last: string, xs: seq<Body>)
    ensures Splits(h, last, xs, [])
  {
    assert xs + [] == xs;
  }

  lemma {:induction false} SplitsByLength(h: Hash, last: string, xs: seq<Body>, n: nat, ys: seq<Body>)
    requires |ys| == n
    ensures Splits(h, last, xs, ys)
    decreases n
  {
    if n == 0 {
      SplitsAtStart(h, last, xs);
      assert ys == [];
    } else {
      var init, b := ys[..n - 1], ys[n - 1];
      SplitsByLength(h, last, xs, n - 1, init);
      SplitSnoc(h, last, xs, init, b);
      assert init + [b] == ys;
    }
  }

  /** Stopping a run anywhere and going on from its tip gives the same receipts. */
  lemma GeneratedSplits(h: Hash, last: string, xs: seq<Body>, ys: seq<Body>)
    ensures Generated(h, last, xs + ys) == Resumed(h, last, xs, ys)
  {
    SplitsByLength(h, last, xs, |ys|, ys);
  }

  /** Persist a run, restart from genesis, restore, and go on: the receipts are the same as
      if the process had never stopped. The anchor may be missing, empty or up to date. */
  lemma RestartIsInvisible(h: Hash, xs: seq<Body>, ys: seq<Body>, anchor: Option<string>)
    requires Avoids(h, "")
    requires anchor.Some? && |anchor.value| > 0 ==>
      anchor.value == Tip(Chain(h), ZERO_HASH, Generated(h, ZERO_HASH, xs))
    ensures var before := Generated(h, ZERO_HASH, xs);
      var restored := Restored(anchor, before, ZERO_HASH);
      before + Generated(h, restored, ys) == Generated(h, ZERO_HASH, xs + ys) &&
      Unbroken(before + Generated(h, restored, ys))
  {
    GeneratedSplits(h, ZERO_HASH, xs, ys);
    RestoredIsTip(h, xs, anchor);
    GeneratedIsIntact(h, ZERO_HASH, xs + ys);
    IntactIsLinked(h, ZERO_HASH, Generated(h, ZERO_HASH, xs + ys));
  }

  lemma RestoredIsTip(h: Hash, xs: seq<Body>, anchor: Option<string>)
    requires Avoids(h, "")
    requires anchor.Some? && |anchor.value| > 0 ==>
      anchor.value == Tip(Chain(h), ZERO_HASH, Generated(h, ZERO_HASH, xs))
    ensures var before := Generated(h, ZERO_HASH, xs);
      Restored(anchor, before, ZERO_HASH) == Tip(Chain(h), ZERO_HASH, before)
  {
    var before := Generated(h, ZERO_HASH, xs);
    GeneratedIsIntact(h, ZERO_HASH, xs);
    if |before| > 0 {
      var view := Chain(h);
      assert view.hash(before[|before| - 1]) == view.digest(before[|before| - 1]);
    }
  }

  /** Whatever was restored, the joined list verifies exactly if it is the tail of what was
      persisted, and otherwise it breaks at the seam and nowhere earlier. */
  lemma SeamDecides(h: Hash, before: seq<Receipt>, restored: string, ys: seq<Body>)
    requires Unbroken(before) && |before| > 0 && |ys| > 0
    ensures var joined := before + Generated(h, restored, ys);
      (Unbroken(joined) <==> restored == before[|before| - 1].receiptHash) &&
      (forall i | 0 <= i < |joined| && BreaksAt(joined, i) :: i == |before|)
  {
    var after := Generated(h, restored, ys);
    GeneratedIsIntact(h, restored, ys);
    IntactIsLinked(h, restored, after);
    var joined := before + after;
    forall i | 0 <= i < |joined| && i != |before| ensures !BreaksAt(joined, i) {
      if i < |before| {
        assert !BreaksAt(before, i);
      } else {
        assert !BreaksAt(after, i - |before|);
      }
    }
    assert BreaksAt(joined, |before|) <==> restored != before[|before| - 1].receiptHash;
  }

  // ---------------------------------------------------------------------
  // The shared last hash
  // ---------------------------------------------------------------------

  const SNAPSHOT_FIELDS := ["policy_id", "policy_hash", "rules", "root_public_key", "policy_signature", "activated_at"]

  function SnapshotValues(p: Policy): seq<Value> {
    [ String(p.policyId), String(p.policyHash), RulesJson(p.rules), String(p.rootPublicKey), String(p.signature),
      Integer(p.activatedAt) ]
  }

  function SnapshotHash(h: Hash, p: Policy): string {
    h(Stringify(Record(SNAPSHOT_FIELDS, SnapshotValues(p))))
  }

  lemma SnapshotFieldsDistinct()
    ensures Distinct(SNAPSHOT_FIELDS)
  {
  }

  /** The snapshot hash binds the whole policy: id, rules, key, signature and activation. */
  lemma SnapshotHashBinds(h: Hash, p: Policy, q: Policy)
    requires CollisionFree(h) && SnapshotHash(h, p) == SnapshotHash(h, q)
    ensures p == q
  {
    SnapshotFieldsDistinct();
    RecordBinds(SNAPSHOT_FIELDS, SnapshotValues(p), SnapshotValues(q));
    SameSnapshot(p, q);
    PolicyFieldsDistinct();
    RecordMeaningBinds(RULE_FIELDS, RulesValues(p.rules), RulesValues(q.rules));
    SameRules(p.rules, q.rules);
  }

  lemma SameSnapshot(p: Policy, q: Policy)
    requires AllAgree(SnapshotValues(p), SnapshotValues(q))
    ensures p.policyId == q.policyId && p.policyHash == q.policyHash && p.rootPublicKey == q.rootPublicKey
    ensures p.signature == q.signature && p.activatedAt == q.activatedAt
    ensures Denote(RulesJson(p.rules)) == Denote(RulesJson(q.rules))
  {
    var vs, ws := SnapshotValues(p), SnapshotValues(q);
    assert Agree(vs, ws, 0) && Agree(vs, ws, 1) && Agree(vs, ws, 2) && Agree(vs, ws, 3) && Agree(vs, ws, 4);
    assert Agree(vs, ws, 5);
    TextsAgree(p.policyId, q.policyId);
    TextsAgree(p.policyHash, q.policyHash);
    TextsAgree(p.rootPublicKey, q.rootPublicKey);
    TextsAgree(p.signature, q.signature);
    IntegersAgree(p.activatedAt, q.activatedAt);
  }

  datatype Params = Params(
    receiptId: string, intentId: string, proposerId: string, approverId: string, tokenId: string, action: string,
    success: bool, result: Value, executor: string, ledgerEntryId: string, proposed: string, approved: string,
    executed: string, delta: Option<int>, snapshotHash: Option<string>
  )

  function BodyOf(h: Hash, p: Policy, q: Params): Body {
    Body(q.receiptId, q.intentId, q.proposerId, q.approverId, q.tokenId, q.action, q.success, q.executor,
      h(Stringify(if q.result.Null? then Object([]) else q.result)), p.policyHash,
      Or(q.snapshotHash, SnapshotHash(h, p)), q.proposed, q.approved, q.executed, q.delta, q.ledgerEntryId)
  }

  class ReceiptLog {
    const sha256: Hash
    var lastReceiptHash: string
    ghost var start: string
    ghost var generated: seq<Body>  // what this process has issued receipts for since start

    ghost predicate Valid()
      reads this
    {
      lastReceiptHash == Tip(Chain(sha256), start, Generated(sha256, start, generated))
    }

    /** A fresh process starts from the zero hash. */
    constructor (h: Hash)
      ensures Valid() && sha256 == h && start == lastReceiptHash == ZERO_HASH && generated == []
    {
      sha256 := h;
      lastReceiptHash := ZERO_HASH;
      start := ZERO_HASH;
      generated := [];
    }

    /** generateCanonicalReceipt; None if there is no active policy. */
    method GenerateCanonicalReceipt(policy: Option<Policy>, q: Params) returns (receipt: Option<Receipt>)
      requires Valid()
      modifies this
      ensures Valid()
      ensures policy.None? ==> receipt.None? && generated == old(generated) && lastReceiptHash == old(lastReceiptHash)
      ensures start == old(start)
      ensures policy.Some? ==> generated == old(generated) + [BodyOf(sha256, policy.value, q)]
      ensures policy.Some? ==>
        receipt.Some? && receipt.value.previousReceiptHash == old(lastReceiptHash) &&
        lastReceiptHash == receipt.value.receiptHash &&
        receipt.value.body ==
          Body(q.receiptId, q.intentId, q.proposerId, q.approverId, q.tokenId, q.action, q.success, q.executor,
               sha256(Stringify(if q.result == Null then Object([]) else q.result)), policy.value.policyHash,
               if q.snapshotHash.Some? then q.snapshotHash.value else SnapshotHash(sha256, policy.value),
               q.proposed, q.approved, q.executed, q.delta, q.ledgerEntryId)
      ensures policy.Some? ==>
        Generated(sha256, start, generated) == Generated(sha256, start, old(generated)) + [receipt.value]
    {
      if policy.None? {
        return None;
      }
      var body := BodyOf(sha256, policy.value, q);
      var r := Receipt(body, lastReceiptHash, ReceiptHash(sha256, body, lastReceiptHash));
      lastReceiptHash := r.receiptHash;
      generated := generated + [body];
      assert generated[..|generated| - 1] == old(generated);
      receipt := Some(r);
    }

    /** restoreFromDrive: a broken ledger is reported but does not stop the restore. */
    method RestoreFromDrive(anchor: Option<string>, entries: seq<Receipt>)
      returns (success: bool, chain: Option<Verification>)
      requires Valid()
      modifies this
      ensures Valid()
      ensures lastReceiptHash == Restored(anchor, entries, old(lastReceiptHash))
      ensures old(lastReceiptHash) != ZERO_HASH ==> lastReceiptHash == old(lastReceiptHash)
      ensures old(lastReceiptHash) == ZERO_HASH && anchor.Some? && anchor.value != "" ==>
        lastReceiptHash == anchor.value
      ensures old(lastReceiptHash) == ZERO_HASH && (anchor.None? || anchor.value == "") && |entries| > 0 ==>
        var tail := entries[|entries| - 1].receiptHash;
        lastReceiptHash == if tail != "" then tail else old(lastReceiptHash)
      ensures lastReceiptHash != old(lastReceiptHash) ==> start == lastReceiptHash && generated == []
      ensures success <==> (anchor.Some? && |anchor.value| > 0) || |entries| > 0
      ensures chain.Some? <==> |entries| > 0
      ensures chain.Some? ==> (chain.value.valid <==> Unbroken(entries))
    {
      var anchorLoaded := anchor.Some? && |anchor.value| > 0;
      var ledgerLoaded := |entries| > 0;
      chain := None;
      if ledgerLoaded {
        var v := VerifyChainIntegrity(entries);
        chain := Some(v);
      }
      var found := "";
      if anchorLoaded {
        found := anchor.value;
      } else if ledgerLoaded {
        found := entries[|entries| - 1].receiptHash;
      }
      if |found| > 0 && lastReceiptHash == ZERO_HASH {
        lastReceiptHash := found;
        start := found;
        generated := [];
      }
      success := anchorLoaded || ledgerLoaded;
    }
  }
}
