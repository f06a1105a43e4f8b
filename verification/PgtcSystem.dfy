/** The PGTC harness: system.execute with its nonce check, gate and write-ahead pair
    PREPARED / COMMITTED (compliance/harness/system.ts).

    TES enforcement and the gate live in modules that are not part of this model; their
    verdicts are inputs, as are clock reads and fresh ids. */
module PgtcSystem {
  import opened Hashing
  import opened Json
  import opened Wrappers
  import opened Intents
  import V = Verification
  import R = Reasons

  const GENESIS := "GENESIS"

  datatype Packet = Packet(
    intentId: string,
    action: string,
    target: string,
    parameters: Value,
    nonce: string,
    timestamp: int,
    signature: string,
    actorId: string,
    sourceType: string
  )

  /** SHA-256, and the packet HMAC as a function of the signed fields. */
  datatype Crypto = Crypto(h: Hash, hmac: (string, string, string, Value, string, int) -> string)

  function Signature(c: Crypto, p: Packet): string {
    c.hmac(p.intentId, p.action, p.target, p.parameters, p.nonce, p.timestamp)
  }

  const INTENT_FIELDS := ["intent_id", "action", "target", "parameters", "nonce"]

  function IntentValues(p: Packet): seq<Value> {
    [String(p.intentId), String(p.action), String(p.target), p.parameters, String(p.nonce)]
  }

  function IntentHash(c: Crypto, p: Packet): string {
    c.h(Stringify(Record(INTENT_FIELDS, IntentValues(p))))
  }

  // ---------------------------------------------------------------------
  // The ledger
  // ---------------------------------------------------------------------

  datatype Kind =
    | TesBlock | NonceReplay | AuthBlock | TokenMissing | GateBlock
    | Prepared | Failed | OutcomeInvalid | Committed

  function KindText(k: Kind): string {
    match k
    case TesBlock => "TES_BLOCK"
    case NonceReplay => "NONCE_REPLAY"
    case AuthBlock => "AUTH_BLOCK"
    case TokenMissing => "TOKEN_MISSING"
    case GateBlock => "GATE_BLOCK"
    case Prepared => "WAL_PREPARED"
    case Failed => "WAL_FAILED"
    case OutcomeInvalid => "OUTCOME_INVALID"
    case Committed => "WAL_COMMITTED"
  }

  predicate Allowed(k: Kind) {
    k.Prepared? || k.Committed?
  }

  /** An entry that closes a PREPARED one. */
  predicate Closing(k: Kind) {
    k.Failed? || k.OutcomeInvalid? || k.Committed?
  }

  datatype Draft = Draft(kind: Kind, reason: Option<string>, intentHash: string, payload: Value)

  datatype Entry = Entry(index: nat, draft: Draft, timestamp: int, prevHash: string, entryHash: string)

  const ENTRY_FIELDS := ["index", "entry_type", "status", "reason", "intent_hash", "timestamp", "prev_hash", "payload"]

  function EntryValues(e: Entry): seq<Value> {
    [ Integer(e.index), String(KindText(e.draft.kind)),
      String(if Allowed(e.draft.kind) then "ALLOWED" else "BLOCKED"), OrNull(e.draft.reason),
      String(e.draft.intentHash), Integer(e.timestamp), String(e.prevHash), e.draft.payload ]
  }

  function EntryHash(c: Crypto, e: Entry): string {
    c.h(Stringify(Record(ENTRY_FIELDS, EntryValues(e))))
  }

  function Chain(c: Crypto): View<Entry> {
    View((e: Entry) => e.prevHash, (e: Entry) => e.entryHash, (e: Entry) => EntryHash(c, e))
  }

  function NewEntry(c: Crypto, ledger: seq<Entry>, d: Draft, now: int): Entry {
    var e := Entry(|ledger|, d, now, Tip(Chain(c), GENESIS, ledger), "");
    e.(entryHash := EntryHash(c, e))
  }

  function Append(c: Crypto, ledger: seq<Entry>, d: Draft, now: int): seq<Entry> {
    ledger + [NewEntry(c, ledger, d, now)]
  }

  lemma AppendIntact(c: Crypto, ledger: seq<Entry>, d: Draft, now: int)
    requires Intact(Chain(c), GENESIS, ledger)
    ensures Intact(Chain(c), GENESIS, Append(c, ledger, d, now))
  {
    var e := NewEntry(c, ledger, d, now);
    assert EntryHash(c, e) == EntryHash(c, e.(entryHash := ""));
    IntactAppend(Chain(c), GENESIS, ledger, e);
  }

  // ---------------------------------------------------------------------
  // State and steps
  // ---------------------------------------------------------------------

  datatype Source = Governed | Direct | Hidden

  datatype AdapterCall = AdapterCall(adapter: string, args: Value, timestamp: int, source: Source)

  datatype State = State(ledger: seq<Entry>, adapterCalls: seq<AdapterCall>, consumedNonces: set<string>,
      cache: V.Cache)

  const INITIAL := State([], [], {}, map[])

  /** None if a check allows, the reason if it refuses. */
  type Refusal = Option<string>

  datatype Inputs = Inputs(
    tes: Refusal,
    userId: int, requestId: string, envelopeNonce: string, createNow: int, verifyNow: int, cleanNow: int,
    verificationId: string,
    skipToken: bool, tokenId: string,
    gate: Refusal,
    adapterError: Refusal,
    outcome: Refusal,
    adapterNow: int, firstNow: int, secondNow: int
  )

  /** createIntentEnvelope with the packet's target. */
  function EnvelopeOf(p: Packet, f: Inputs): Envelope {
    Envelope(p.intentId, "REQ-" + f.requestId, p.sourceType,
      (if p.sourceType == "HUMAN" then "user:" else "agent:") + Decimal(f.userId), Decimal(f.userId), f.createNow,
      f.envelopeNonce, p.action, p.target, p.parameters, Object([]), None, "POLICY-v0.3", Some(p.signature), Object([]))
  }

  const OPTIONS := V.Options(true, None)

  function Verify(c: Crypto, cache: V.Cache, p: Packet, f: Inputs): V.VerificationResult {
    V.Verify(c.h, cache, EnvelopeOf(p, f), OPTIONS, f.verifyNow, f.cleanNow, f.verificationId)
  }

  function Joined(fs: seq<V.Failure>): string {
    if |fs| == 0 then ""
    else if |fs| == 1 then R.FailureText(fs[0])
    else R.FailureText(fs[0]) + "; " + Joined(fs[1..])
  }

  /** How far a call gets: blocked with the entry it writes, or prepared and then closed. */
  datatype Verdict = Blocked(kind: Kind, reason: string) | Closed(kind: Kind, failure: Option<string>)

  predicate ReachesVerification(c: Crypto, s: State, p: Packet, f: Inputs) {
    f.tes.None? && p.nonce !in s.consumedNonces && p.signature == Signature(c, p)
  }

  function Decide(c: Crypto, s: State, p: Packet, f: Inputs): Verdict {
    if f.tes.Some? then Blocked(TesBlock, f.tes.value)
    else if p.nonce in s.consumedNonces then Blocked(NonceReplay, "NONCE_REPLAY")
    else if p.signature != Signature(c, p) then Blocked(AuthBlock, "INVALID_SIGNATURE")
    else
      var v := Verify(c, s.cache, p, f);
      if !v.verified then Blocked(AuthBlock, Joined(v.failureReasons))
      else if f.skipToken then Blocked(TokenMissing, "NO_TOKEN")
      else if f.gate.Some? then Blocked(GateBlock, f.gate.value)
      else Ending(f)
  }

  /** How a call ends once its adapter is reached. */
  function Ending(f: Inputs): Verdict {
    if f.adapterError.Some? then Closed(Failed, f.adapterError)
    else if f.outcome.Some? then Closed(OutcomeInvalid, f.outcome)
    else Closed(Committed, None)
  }

  function PreparedDraft(c: Crypto, p: Packet, f: Inputs): Draft {
    Draft(Prepared, None, IntentHash(c, p),
      Object([Member("action", String(p.action)), Member("target", String(p.target)),
        Member("token_id", String(f.tokenId))]))
  }

  /** The ledger, call list and nonces after a call that comes to the given verdict. */
  function Apply(c: Crypto, s: State, p: Packet, f: Inputs, v: Verdict): State {
    match v
    case Blocked(kind, reason) =>
      s.(ledger := Append(c, s.ledger, Draft(kind, Some(reason), IntentHash(c, p), Object([])), f.firstNow))
    case Closed(kind, reason) =>
      var prepared := Append(c, s.ledger, PreparedDraft(c, p, f), f.firstNow);
      s.(ledger := Append(c, prepared, Draft(kind, reason, IntentHash(c, p), Object([])), f.secondNow),
         adapterCalls := s.adapterCalls + [AdapterCall(p.action, p.parameters, f.adapterNow, Governed)],
         consumedNonces := if kind.Committed? then s.consumedNonces + {p.nonce} else s.consumedNonces)
  }

  datatype Op =
    | Execute(p: Packet, f: Inputs)
    | DirectAdapterCall(adapter: string, args: Value, at: int)
    | AttemptHiddenSideEffect(args: Value, at: int)

  function Step(c: Crypto, s: State, op: Op): State {
    match op
    case Execute(p, f) =>
      Apply(c, s, p, f, Decide(c, s, p, f)).(cache :=
        if ReachesVerification(c, s, p, f) then V.Remember(s.cache, EnvelopeOf(p, f), f.verifyNow, f.cleanNow)
        else s.cache)
    case DirectAdapterCall(adapter, args, at) =>
      s.(adapterCalls := s.adapterCalls + [AdapterCall(adapter, args, at, Direct)])
    case AttemptHiddenSideEffect(args, at) =>
      s.(adapterCalls := s.adapterCalls + [AdapterCall("HIDDEN", args, at, Hidden)])
  }

  predicate Allows(c: Crypto, s: State, p: Packet, f: Inputs) {
    Decide(c, s, p, f) == Closed(Committed, None)
  }

  // ---------------------------------------------------------------------
  // Conservation
  // ---------------------------------------------------------------------

  function Count(es: seq<Entry>, k: Kind): nat {
    if |es| == 0 then 0 else Count(es[..|es| - 1], k) + (if es[|es| - 1].draft.kind == k then 1 else 0)
  }

  function GovernedCalls(cs: seq<AdapterCall>): nat {
    if |cs| == 0 then 0 else GovernedCalls(cs[..|cs| - 1]) + (if cs[|cs| - 1].source.Governed? then 1 else 0)
  }

  ghost predicate Counts(s: State) {
    Count(s.ledger, Prepared) == GovernedCalls(s.adapterCalls) &&
    Count(s.ledger, Prepared) == Count(s.ledger, Committed) + Count(s.ledger, Failed) +
      Count(s.ledger, OutcomeInvalid) &&
    Count(s.ledger, Committed) == |s.consumedNonces|
  }

  /** Every PREPARED entry is followed at once by a closing entry of the same intent, and
      every closing entry closes the one before it. */
  ghost predicate Paired(es: seq<Entry>) {
    (forall i | 0 <= i < |es| && es[i].draft.kind.Prepared? ::
      i + 1 < |es| && Closing(es[i + 1].draft.kind) && es[i + 1].draft.intentHash == es[i].draft.intentHash) &&
    (forall i | 0 <= i < |es| && Closing(es[i].draft.kind) :: i > 0 && es[i - 1].draft.kind.Prepared?)
  }

  ghost predicate Numbered(es: seq<Entry>) {
    forall i | 0 <= i < |es| :: es[i].index == i
  }

  ghost predicate Shaped(es: seq<Entry>) {
    Paired(es) && Numbered(es)
  }

  ghost predicate Inv(c: Crypto, s: State) {
    Intact(Chain(c), GENESIS, s.ledger) && Counts(s) && Shaped(s.ledger)
  }

  /** A verdict that Decide can come to. */
  ghost predicate Sound(s: State, p: Packet, v: Verdict) {
    match v
    case Blocked(kind, _) => !kind.Prepared? && !Closing(kind)
    case Closed(kind, _) => Closing(kind) && p.nonce !in s.consumedNonces
  }

  lemma DecideIsSound(c: Crypto, s: State, p: Packet, f: Inputs)
    ensures Sound(s, p, Decide(c, s, p, f))
  {
  }

  lemma CountAppend(c: Crypto, es: seq<Entry>, d: Draft, now: int, k: Kind)
    ensures Count(Append(c, es, d, now), k) == Count(es, k) + (if d.kind == k then 1 else 0)
  {
    var e := NewEntry(c, es, d, now);
    assert (es + [e])[..|es|] == es;
  }

  lemma CountTwo(c: Crypto, es: seq<Entry>, d: Draft, t: int, d': Draft, t': int, k: Kind)
    ensures Count(Append(c, Append(c, es, d, t), d', t'), k)
      == Count(es, k) + (if d.kind == k then 1 else 0) + (if d'.kind == k then 1 else 0)
  {
    CountAppend(c, es, d, t, k);
    CountAppend(c, Append(c, es, d, t), d', t', k);
  }

  lemma GovernedAppend(cs: seq<AdapterCall>, call: AdapterCall)
    ensures GovernedCalls(cs + [call]) == GovernedCalls(cs) + (if call.source.Governed? then 1 else 0)
  {
    assert (cs + [call])[..|cs|] == cs;
  }

  lemma BlockedKeepsCounts(c: Crypto, s: State, p: Packet, f: Inputs, v: Verdict)
    requires Counts(s) && Sound(s, p, v) && v.Blocked?
    ensures Counts(Apply(c, s, p, f, v))
  {
    var d := Draft(v.kind, Some(v.reason), IntentHash(c, p), Object([]));
    CountAppend(c, s.ledger, d, f.firstNow, Prepared);
    CountAppend(c, s.ledger, d, f.firstNow, Committed);
    CountAppend(c, s.ledger, d, f.firstNow, Failed);
    CountAppend(c, s.ledger, d, f.firstNow, OutcomeInvalid);
  }

  lemma ClosedKeepsCounts(c: Crypto, s: State, p: Packet, f: Inputs, v: Verdict)
    requires Counts(s) && Sound(s, p, v) && v.Closed?
    ensures Counts(Apply(c, s, p, f, v))
  {
    var d, e := PreparedDraft(c, p, f), Draft(v.kind, v.failure, IntentHash(c, p), Object([]));
    CountTwo(c, s.ledger, d, f.firstNow, e, f.secondNow, Prepared);
    CountTwo(c, s.ledger, d, f.firstNow, e, f.secondNow, Committed);
    CountTwo(c, s.ledger, d, f.firstNow, e, f.secondNow, Failed);
    CountTwo(c, s.ledger, d, f.firstNow, e, f.secondNow, OutcomeInvalid);
    GovernedAppend(s.adapterCalls, AdapterCall(p.action, p.parameters, f.adapterNow, Governed));
  }

  lemma ExtendShape(es: seq<Entry>, e: Entry)
    requires Shaped(es) && e.index == |es| && !e.draft.kind.Prepared? && !Closing(e.draft.kind)
    ensures Shaped(es + [e])
  {
  }

  lemma ExtendShapeByPair(es: seq<Entry>, d: Entry, e: Entry)
    requires Shaped(es) && d.index == |es| && e.index == |es| + 1
    requires d.draft.kind.Prepared? && Closing(e.draft.kind) && d.draft.intentHash == e.draft.intentHash
    ensures Shaped(es + [d] + [e])
  {
    var all := es + [d] + [e];
    assert all[|es|] == d && all[|es| + 1] == e;
    assert forall i | 0 <= i < |es| :: all[i] == es[i];
  }

  lemma ApplyKeepsShape(c: Crypto, s: State, p: Packet, f: Inputs, v: Verdict)
    requires Shaped(s.ledger) && Sound(s, p, v)
    ensures Shaped(Apply(c, s, p, f, v).ledger)
  {
    match v
    case Blocked(kind, reason) =>
      ExtendShape(s.ledger, NewEntry(c, s.ledger, Draft(kind, Some(reason), IntentHash(c, p), Object([])), f.firstNow));
    case Closed(kind, failure) =>
      var d := NewEntry(c, s.ledger, PreparedDraft(c, p, f), f.firstNow);
      var e := NewEntry(c, s.ledger + [d], Draft(kind, failure, IntentHash(c, p), Object([])), f.secondNow);
      ExtendShapeByPair(s.ledger, d, e);
  }

  lemma ApplyKeepsChain(c: Crypto, s: State, p: Packet, f: Inputs, v: Verdict)
    requires Intact(Chain(c), GENESIS, s.ledger)
    ensures Intact(Chain(c), GENESIS, Apply(c, s, p, f, v).ledger)
  {
    match v
    case Blocked(kind, reason) =>
      AppendIntact(c, s.ledger, Draft(kind, Some(reason), IntentHash(c, p), Object([])), f.firstNow);
    case Closed(kind, reason) =>
      AppendIntact(c, s.ledger, PreparedDraft(c, p, f), f.firstNow);
      AppendIntact(c, Append(c, s.ledger, PreparedDraft(c, p, f), f.firstNow),
        Draft(kind, reason, IntentHash(c, p), Object([])), f.secondNow);
  }

  lemma StepKeepsInv(c: Crypto, s: State, op: Op)
    requires Inv(c, s)
    ensures Inv(c, Step(c, s, op))
  {
    match op
    case Execute(p, f) =>
      var v := Decide(c, s, p, f);
      DecideIsSound(c, s, p, f);
      if v.Blocked? { BlockedKeepsCounts(c, s, p, f, v); } else { ClosedKeepsCounts(c, s, p, f, v); }
      ApplyKeepsShape(c, s, p, f, v);
      ApplyKeepsChain(c, s, p, f, v);
    case DirectAdapterCall(adapter, args, at) =>
      GovernedAppend(s.adapterCalls, AdapterCall(adapter, args, at, Direct));
    case AttemptHiddenSideEffect(args, at) =>
      GovernedAppend(s.adapterCalls, AdapterCall("HIDDEN", args, at, Hidden));
  }

  /** A run from the initial state. */
  ghost predicate IsRun(c: Crypto, states: seq<State>, ops: seq<Op>) {
    |states| == |ops| + 1 && states[0] == INITIAL &&
    forall i {:trigger Step(c, states[i], ops[i])} | 0 <= i < |ops| :: states[i + 1] == Step(c, states[i], ops[i])
  }

  lemma RunStepKeepsInv(c: Crypto, states: seq<State>, ops: seq<Op>, i: nat)
    requires IsRun(c, states, ops) && i < |ops| && Inv(c, states[i])
    ensures Inv(c, states[i + 1])
  {
    StepKeepsInv(c, states[i], ops[i]);
  }

  lemma {:induction false} RunKeepsInv(c: Crypto, states: seq<State>, ops: seq<Op>, n: nat)
    requires IsRun(c, states, ops) && n <= |ops|
    ensures Inv(c, states[n])
  {
    if n > 0 {
      RunKeepsInv(c, states, ops, n - 1);
      RunStepKeepsInv(c, states, ops, n - 1);
    }
  }

  /** After any sequence of operations: prepared entries, governed adapter calls and closing
      entries are equally many, commits are as many as consumed nonces, every write-ahead
      pair is complete, and the ledger is one intact chain. */
  lemma Conservation(c: Crypto, states: seq<State>, ops: seq<Op>, n: nat)
    requires IsRun(c, states, ops) && n <= |ops|
    ensures var s := states[n];
      Count(s.ledger, Prepared) == GovernedCalls(s.adapterCalls) &&
      Count(s.ledger, Prepared) == Count(s.ledger, Committed) + Count(s.ledger, Failed) +
        Count(s.ledger, OutcomeInvalid) &&
      Count(s.ledger, Committed) == |s.consumedNonces|
    ensures var es := states[n].ledger;
      forall i | 0 <= i < |es| && es[i].draft.kind.Prepared? ::
        i + 1 < |es| && Closing(es[i + 1].draft.kind) && es[i + 1].draft.intentHash == es[i].draft.intentHash
    ensures Intact(Chain(c), GENESIS, states[n].ledger)
  {
    RunKeepsInv(c, states, ops, n);
  }

  /** Each execute adds one entry if it is blocked before the adapter, and two otherwise. */
  lemma OneOrTwoEntries(c: Crypto, s: State, p: Packet, f: Inputs)
    ensures var before, after := s.ledger, Step(c, s, Execute(p, f)).ledger;
      before <= after && |after| == |before| + (if Decide(c, s, p, f).Closed? then 2 else 1)
  {
  }

  lemma StepKeepsConsumed(c: Crypto, states: seq<State>, ops: seq<Op>, i: nat)
    requires IsRun(c, states, ops) && i < |ops|
    ensures states[i].consumedNonces <= states[i + 1].consumedNonces
  {
    assert states[i + 1] == Step(c, states[i], ops[i]);
  }

  lemma AllowConsumes(c: Crypto, states: seq<State>, ops: seq<Op>, i: nat)
    requires IsRun(c, states, ops) && i < |ops| && ops[i].Execute? && Allows(c, states[i], ops[i].p, ops[i].f)
    ensures ops[i].p.nonce !in states[i].consumedNonces && ops[i].p.nonce in states[i + 1].consumedNonces
  {
    assert states[i + 1] == Step(c, states[i], ops[i]);
  }

  lemma {:induction false} ConsumedStays(c: Crypto, states: seq<State>, ops: seq<Op>, m: nat, n: nat)
    requires IsRun(c, states, ops) && m <= n <= |ops|
    ensures states[m].consumedNonces <= states[n].consumedNonces
  {
    if m < n {
      ConsumedStays(c, states, ops, m, n - 1);
      StepKeepsConsumed(c, states, ops, n - 1);
    }
  }

  /** No nonce is allowed twice. */
  lemma NonceAllowedAtMostOnce(c: Crypto, states: seq<State>, ops: seq<Op>, i: nat, j: nat)
    requires IsRun(c, states, ops)
    requires i < j < |ops| && ops[i].Execute? && ops[j].Execute? && ops[i].p.nonce == ops[j].p.nonce
    ensures !(Allows(c, states[i], ops[i].p, ops[i].f) && Allows(c, states[j], ops[j].p, ops[j].f))
  {
    if Allows(c, states[i], ops[i].p, ops[i].f) && Allows(c, states[j], ops[j].p, ops[j].f) {
      AllowConsumes(c, states, ops, i);
      AllowConsumes(c, states, ops, j);
      ConsumedStays(c, states, ops, i + 1, j);
    }
  }

  // ---------------------------------------------------------------------
  // How often one packet reaches its adapter
  // ---------------------------------------------------------------------

  /** The call gets past the gate: its adapter runs. */
  predicate RunsAdapter(c: Crypto, s: State, p: Packet, f: Inputs) {
    Decide(c, s, p, f).Closed?
  }

  lemma AdapterRuns(c: Crypto, s: State, p: Packet, f: Inputs)
    ensures GovernedCalls(Step(c, s, Execute(p, f)).adapterCalls) ==
            GovernedCalls(s.adapterCalls) + (if RunsAdapter(c, s, p, f) then 1 else 0)
  {
    GovernedAppend(s.adapterCalls, AdapterCall(p.action, p.parameters, f.adapterNow, Governed));
  }

  /** After an allowed call no later call with its nonce reaches the adapter, whatever
      comes between. */
  lemma AllowedNonceIsSpent(c: Crypto, states: seq<State>, ops: seq<Op>, i: nat, j: nat)
    requires IsRun(c, states, ops)
    requires i < j < |ops| && ops[i].Execute? && ops[j].Execute? && ops[i].p.nonce == ops[j].p.nonce
    requires Allows(c, states[i], ops[i].p, ops[i].f)
    ensures !RunsAdapter(c, states[j], ops[j].p, ops[j].f)
  {
    AllowConsumes(c, states, ops, i);
    ConsumedStays(c, states, ops, i + 1, j);
    ConsumedIsStopped(c, states[j], ops[j].p, ops[j].f);
  }

  lemma ConsumedIsStopped(c: Crypto, s: State, p: Packet, f: Inputs)
    requires p.nonce in s.consumedNonces
    ensures !RunsAdapter(c, s, p, f)
  {
  }

  /** The checks of a call that do not depend on earlier outcomes. */
  predicate PassesChecks(c: Crypto, s: State, p: Packet, f: Inputs) {
    f.tes.None? && Verify(c, s.cache, p, f).verified && !f.skipToken && f.gate.None?
  }

  /** Some call before the first n was about this nonce and allowed. */
  ghost predicate AllowedBefore(c: Crypto, states: seq<State>, ops: seq<Op>, n: nat, nonce: string)
    requires n <= |ops| < |states|
  {
    exists m :: 0 <= m < n && AllowedAt(c, states, ops, m, nonce)
  }

  ghost predicate AllowedAt(c: Crypto, states: seq<State>, ops: seq<Op>, m: nat, nonce: string)
    requires m < |ops| < |states|
  {
    ops[m].Execute? && ops[m].p.nonce == nonce && Allows(c, states[m], ops[m].p, ops[m].f)
  }

  lemma ConsumedStep(c: Crypto, states: seq<State>, ops: seq<Op>, m: nat, nonce: string)
    requires IsRun(c, states, ops) && m < |ops|
    ensures nonce in states[m + 1].consumedNonces <==>
            nonce in states[m].consumedNonces || AllowedAt(c, states, ops, m, nonce)
  {
    assert states[m + 1] == Step(c, states[m], ops[m]);
    if ops[m].Execute? {
      DecideIsSound(c, states[m], ops[m].p, ops[m].f);
    }
  }

  lemma AllowedBeforeStep(c: Crypto, states: seq<State>, ops: seq<Op>, n: nat, nonce: string)
    requires 0 < n <= |ops| < |states|
    ensures AllowedBefore(c, states, ops, n, nonce) <==>
            AllowedBefore(c, states, ops, n - 1, nonce) || AllowedAt(c, states, ops, n - 1, nonce)
  {
  }

  lemma {:induction false} ConsumedIffAllowedBefore(c: Crypto, states: seq<State>, ops: seq<Op>, n: nat, nonce: string)
    requires IsRun(c, states, ops) && n <= |ops|
    ensures nonce in states[n].consumedNonces <==> AllowedBefore(c, states, ops, n, nonce)
  {
    if n > 0 {
      ConsumedIffAllowedBefore(c, states, ops, n - 1, nonce);
      ConsumedStep(c, states, ops, n - 1, nonce);
      AllowedBeforeStep(c, states, ops, n, nonce);
    }
  }

  /** In a run, a signed packet that passes TES, verification, token and gate runs its adapter
      if and only if no earlier call with its nonce was ALLOWed. Earlier calls that ran the
      adapter and did not commit do not count. */
  lemma RunsAdapterIff(c: Crypto, states: seq<State>, ops: seq<Op>, j: nat)
    requires IsRun(c, states, ops) && j < |ops| && ops[j].Execute? && ops[j].p.signature == Signature(c, ops[j].p)
    requires PassesChecks(c, states[j], ops[j].p, ops[j].f)
    ensures RunsAdapter(c, states[j], ops[j].p, ops[j].f) <==> !AllowedBefore(c, states, ops, j, ops[j].p.nonce)
  {
    ConsumedIffAllowedBefore(c, states, ops, j, ops[j].p.nonce);
  }

  /** In a run, a call is ALLOWed exactly if it is signed, passes the checks, is the first
      allowed one with its nonce, and its adapter and outcome raise nothing. */
  lemma AllowsIff(c: Crypto, states: seq<State>, ops: seq<Op>, j: nat)
    requires IsRun(c, states, ops) && j < |ops| && ops[j].Execute?
    ensures var p, f := ops[j].p, ops[j].f;
      Allows(c, states[j], p, f) <==>
      p.signature == Signature(c, p) && PassesChecks(c, states[j], p, f) &&
      !AllowedBefore(c, states, ops, j, p.nonce) && f.adapterError.None? && f.outcome.None?
  {
    ConsumedIffAllowedBefore(c, states, ops, j, ops[j].p.nonce);
  }

  /** Right after its adapter ran, the same packet, passing the checks, runs it again if and
      only if the first call did not commit. */
  lemma AdapterRunsAgainIff(c: Crypto, s: State, p: Packet, f: Inputs, again: Inputs)
    requires RunsAdapter(c, s, p, f)
    requires PassesChecks(c, Step(c, s, Execute(p, f)), p, again)
    ensures RunsAdapter(c, Step(c, s, Execute(p, f)), p, again) <==> Decide(c, s, p, f).kind != Committed
  {
    var t := Step(c, s, Execute(p, f));
    assert p.signature == Signature(c, p) && p.nonce !in s.consumedNonces;
    assert p.nonce in t.consumedNonces <==> Decide(c, s, p, f).kind == Committed;
  }

  /** A packet that is signed and complete. */
  predicate Sendable(c: Crypto, p: Packet) {
    p.signature == Signature(c, p) && |p.signature| >= 10 && V.KnownSourceType(p.sourceType) &&
    |p.intentId| > 0 && |p.action| > 0 && |p.target| > 0 && (p.parameters.Object? || p.parameters.Array?)
  }

  /** A call at time nought, with the given envelope nonce and outcome check. */
  function Sending(envelopeNonce: string, outcome: Refusal): Inputs {
    Inputs(None, 1, "r", envelopeNonce, 0, 0, 0, "v", false, "t", None, None, outcome, 0, 0, 0)
  }

  lemma SendingIsVerified(c: Crypto, cache: V.Cache, p: Packet, envelopeNonce: string, outcome: Refusal)
    requires Sendable(c, p) && |envelopeNonce| > 0 && envelopeNonce !in cache
    ensures Verify(c, cache, p, Sending(envelopeNonce, outcome)).verified
  {
    var e := EnvelopeOf(p, Sending(envelopeNonce, outcome));
    assert |e.requestId| >= 4 && |e.sourceId| >= 5 && |e.actorId| > 0;
    assert envelopeNonce !in V.Purge(cache, 0);
  }

  /** Every packet that can be sent at all can be sent so that its adapter runs twice: first
      with an outcome that the validator refuses, then again. The ledger ends with an
      OUTCOME_INVALID and a COMMITTED entry for it. */
  lemma AdapterRunsTwice(c: Crypto, p: Packet) returns (states: seq<State>, ops: seq<Op>)
    requires Sendable(c, p)
    ensures IsRun(c, states, ops) && |ops| == 2 && forall op | op in ops :: op.Execute? && op.p == p
    ensures GovernedCalls(states[2].adapterCalls) == 2 && p.nonce in states[2].consumedNonces
    ensures Count(states[2].ledger, OutcomeInvalid) == 1 && Count(states[2].ledger, Committed) == 1
  {
    ops := [Execute(p, Sending("1", REFUSED)), Execute(p, Sending("2", None))];
    states := RunOf(c, ops);
    AfterFirst(c, p, states, ops);
    AfterSecond(c, p, states, ops);
  }

  /** Any operations can be run. */
  lemma RunOf(c: Crypto, ops: seq<Op>) returns (states: seq<State>)
    ensures IsRun(c, states, ops)
  {
    states := [INITIAL];
    for n := 0 to |ops|
      invariant |states| == n + 1 && states[0] == INITIAL
      invariant forall i {:trigger Step(c, states[i], ops[i])} | 0 <= i < n ::
        states[i + 1] == Step(c, states[i], ops[i])
    {
      states := states + [Step(c, states[n], ops[n])];
    }
  }

  lemma AfterFirst(c: Crypto, p: Packet, states: seq<State>, ops: seq<Op>)
    requires Sendable(c, p) && IsRun(c, states, ops)
    requires |ops| > 0 && ops[0] == Execute(p, Sending("1", REFUSED))
    ensures GovernedCalls(states[1].adapterCalls) == 1 && p.nonce !in states[1].consumedNonces
    ensures "2" !in states[1].cache
    ensures Count(states[1].ledger, OutcomeInvalid) == 1 && Count(states[1].ledger, Committed) == 0
  {
    RunStep(c, states, ops, 0);
    SendingEffects(c, p, states[0], "1", REFUSED);
  }

  lemma AfterSecond(c: Crypto, p: Packet, states: seq<State>, ops: seq<Op>)
    requires Sendable(c, p) && IsRun(c, states, ops)
    requires |ops| > 1 && ops[1] == Execute(p, Sending("2", None))
    requires "2" !in states[1].cache && p.nonce !in states[1].consumedNonces
    ensures GovernedCalls(states[2].adapterCalls) == GovernedCalls(states[1].adapterCalls) + 1
    ensures p.nonce in states[2].consumedNonces
    ensures Count(states[2].ledger, OutcomeInvalid) == Count(states[1].ledger, OutcomeInvalid)
    ensures Count(states[2].ledger, Committed) == Count(states[1].ledger, Committed) + 1
  {
    RunStep(c, states, ops, 1);
    SendingEffects(c, p, states[1], "2", None);
  }

  const REFUSED: Refusal := Some("INVALID_OUTCOME")

  lemma SendingDecides(c: Crypto, p: Packet, s: State, envelopeNonce: string, outcome: Refusal)
    requires Sendable(c, p) && |envelopeNonce| > 0 && envelopeNonce !in s.cache && p.nonce !in s.consumedNonces
    ensures Decide(c, s, p, Sending(envelopeNonce, outcome)) ==
            if outcome.Some? then Closed(OutcomeInvalid, outcome) else Closed(Committed, None)
  {
    SendingIsVerified(c, s.cache, p, envelopeNonce, outcome);
  }

  lemma SendingRemembers(c: Crypto, p: Packet, s: State, envelopeNonce: string, outcome: Refusal)
    ensures var t := Step(c, s, Execute(p, Sending(envelopeNonce, outcome)));
      forall n | n in t.cache :: n in s.cache || n == envelopeNonce
  {
  }

  lemma SendingEffects(c: Crypto, p: Packet, s: State, envelopeNonce: string, outcome: Refusal)
    requires Sendable(c, p) && |envelopeNonce| > 0 && envelopeNonce !in s.cache && p.nonce !in s.consumedNonces
    ensures var t := Step(c, s, Execute(p, Sending(envelopeNonce, outcome)));
      GovernedCalls(t.adapterCalls) == GovernedCalls(s.adapterCalls) + 1 &&
      (p.nonce in t.consumedNonces <==> outcome.None?) &&
      (forall n | n in t.cache :: n in s.cache || n == envelopeNonce) &&
      Count(t.ledger, OutcomeInvalid) == Count(s.ledger, OutcomeInvalid) + (if outcome.Some? then 1 else 0) &&
      Count(t.ledger, Committed) == Count(s.ledger, Committed) + (if outcome.Some? then 0 else 1)
  {
    var f := Sending(envelopeNonce, outcome);
    SendingDecides(c, p, s, envelopeNonce, outcome);
    SendingRemembers(c, p, s, envelopeNonce, outcome);
    AdapterRuns(c, s, p, f);
    EndingCounts(c, s, p, f);
    EndingTells(c, s, p, f);
  }

  /** A call that reaches its adapter adds one closing entry of its kind. */
  lemma EndingCounts(c: Crypto, s: State, p: Packet, f: Inputs)
    requires RunsAdapter(c, s, p, f)
    ensures var k := Decide(c, s, p, f).kind;
      var before, after := s.ledger, Step(c, s, Execute(p, f)).ledger;
      Count(after, OutcomeInvalid) == Count(before, OutcomeInvalid) + (if k == OutcomeInvalid then 1 else 0) &&
      Count(after, Committed) == Count(before, Committed) + (if k == Committed then 1 else 0)
  {
    var v := Decide(c, s, p, f);
    var d, e := PreparedDraft(c, p, f), Draft(v.kind, v.failure, IntentHash(c, p), Object([]));
    CountTwo(c, s.ledger, d, f.firstNow, e, f.secondNow, OutcomeInvalid);
    CountTwo(c, s.ledger, d, f.firstNow, e, f.secondNow, Committed);
  }

  /** Some packet can be sent, whatever the key. */
  lemma SendableExists(c: Crypto)
    requires forall i, a, t, v, n, at :: |c.hmac(i, a, t, v, n, at)| >= 10
    ensures exists p :: Sendable(c, p)
  {
    var p := Packet("i", "a", "t", Object([]), "n", 0, c.hmac("i", "a", "t", Object([]), "n", 0), "x", "HUMAN");
    assert Sendable(c, p);
  }

  // ---------------------------------------------------------------------
  // What a call does, from the packet itself
  // ---------------------------------------------------------------------

  lemma EnvelopeIsPackets(p: Packet, f: Inputs)
    ensures var e := EnvelopeOf(p, f);
      e.intentId == p.intentId && e.actionType == p.action && e.target == p.target && e.parameters == p.parameters &&
      e.sourceType == p.sourceType && e.signature == Some(p.signature) && e.timestamp == f.createNow &&
      e.nonce == f.envelopeNonce && e.requestId != "" && e.sourceId != "" && e.actorId != ""
  {
    assert |"REQ-" + f.requestId| >= 4 && |Decimal(f.userId)| > 0;
  }

  /** Verification of the envelope that a packet is put in. */
  lemma PacketVerifiedIff(c: Crypto, cache: V.Cache, p: Packet, f: Inputs)
    ensures Verify(c, cache, p, f).verified <==>
      (p.intentId != "" && p.action != "" && p.target != "" && (p.parameters.Object? || p.parameters.Array?) &&
       (p.sourceType == "HUMAN" || p.sourceType == "AI_AGENT" || p.sourceType == "SYSTEM" || p.sourceType == "API") &&
       |p.signature| >= 10 && 0 <= f.verifyNow - f.createNow <= 300_000 && f.envelopeNonce != "" &&
       (f.envelopeNonce !in cache || f.cleanNow - cache[f.envelopeNonce] > 600_000))
  {
    EnvelopeIsPackets(p, f);
    V.VerifiedIff(c.h, cache, EnvelopeOf(p, f), OPTIONS, f.verifyNow, f.cleanNow, f.verificationId);
  }

  /** In a run, the adapter is called for a packet exactly if nothing in TES, token or gate
      stops it, its signature is the HMAC of its own fields, it is complete and of a known
      source, its envelope is in time and new, and no earlier call with its nonce was
      allowed; and then it is called once, with the packet's own action and parameters. */
  lemma AdapterCalledExactly(c: Crypto, states: seq<State>, ops: seq<Op>, j: nat)
    requires IsRun(c, states, ops) && j < |ops| && ops[j].Execute?
    ensures var p, f, s := ops[j].p, ops[j].f, states[j];
      var reached :=
        f.tes.None? && !f.skipToken && f.gate.None? &&
        p.signature == c.hmac(p.intentId, p.action, p.target, p.parameters, p.nonce, p.timestamp) &&
        p.intentId != "" && p.action != "" && p.target != "" && (p.parameters.Object? || p.parameters.Array?) &&
        (p.sourceType == "HUMAN" || p.sourceType == "AI_AGENT" || p.sourceType == "SYSTEM" || p.sourceType == "API") &&
        |p.signature| >= 10 && 0 <= f.verifyNow - f.createNow <= 300_000 && f.envelopeNonce != "" &&
        (f.envelopeNonce !in s.cache || f.cleanNow - s.cache[f.envelopeNonce] > 600_000) &&
        !AllowedBefore(c, states, ops, j, p.nonce);
      states[j + 1].adapterCalls ==
        s.adapterCalls + if reached then [AdapterCall(p.action, p.parameters, f.adapterNow, Governed)] else []
  {
    var p, f := ops[j].p, ops[j].f;
    PacketVerifiedIff(c, states[j].cache, p, f);
    ConsumedIffAllowedBefore(c, states, ops, j, p.nonce);
    RunStep(c, states, ops, j);
    CallsAfter(c, states[j], p, f);
  }

  lemma RunStep(c: Crypto, states: seq<State>, ops: seq<Op>, i: nat)
    requires IsRun(c, states, ops) && i < |ops|
    ensures states[i + 1] == Step(c, states[i], ops[i])
  {
  }

  lemma CallsAfter(c: Crypto, s: State, p: Packet, f: Inputs)
    ensures Step(c, s, Execute(p, f)).adapterCalls ==
      if f.tes.None? && p.nonce !in s.consumedNonces && p.signature == Signature(c, p) &&
         Verify(c, s.cache, p, f).verified && !f.skipToken && f.gate.None?
      then s.adapterCalls + [AdapterCall(p.action, p.parameters, f.adapterNow, Governed)] else s.adapterCalls
  {
  }

  /** Which envelope nonces a call leaves in the cache: those of the last ten minutes and its
      own, if it gets as far as verification; what was there, if not. */
  lemma CacheAfter(c: Crypto, s: State, p: Packet, f: Inputs, n: string)
    ensures var after := Step(c, s, Execute(p, f)).cache;
      if f.tes.None? && p.nonce !in s.consumedNonces &&
         p.signature == c.hmac(p.intentId, p.action, p.target, p.parameters, p.nonce, p.timestamp)
      then
        var kept := n in s.cache && f.cleanNow - s.cache[n] <= 600_000;
        (n in after <==> kept || (n == f.envelopeNonce && n != "")) &&
        (n in after ==> after[n] == if kept then s.cache[n] else f.verifyNow)
      else after == s.cache
  {
    EnvelopeIsPackets(p, f);
    V.RememberedIff(s.cache, EnvelopeOf(p, f), f.verifyNow, f.cleanNow, n);
  }

  /** The reasons of a refused verification are joined in order. */
  lemma {:induction false} JoinedGrows(fs: seq<V.Failure>, f: V.Failure)
    ensures Joined([]) == ""
    ensures Joined(fs + [f]) == if |fs| == 0 then R.FailureText(f) else Joined(fs) + "; " + R.FailureText(f)
  {
    if |fs| == 0 {
      assert fs + [f] == [f];
    } else {
      JoinedGrows(fs[1..], f);
      assert (fs + [f])[1..] == fs[1..] + [f];
      if |fs| == 1 {
        assert fs[1..] + [f] == [f];
      }
    }
  }

  /** The status that an entry's hash covers. */
  lemma StatusTold(e: Entry)
    ensures EntryValues(e)[2] ==
            String(if e.draft.kind == Prepared || e.draft.kind == Committed then "ALLOWED" else "BLOCKED")
  {
  }

  /** The two calls that go past the gate are recorded as such, and nothing else changes. */
  lemma UngovernedCalls(c: Crypto, s: State, name: string, args: Value, at: int)
    ensures Step(c, s, DirectAdapterCall(name, args, at)) ==
            s.(adapterCalls := s.adapterCalls + [AdapterCall(name, args, at, Direct)])
    ensures Step(c, s, AttemptHiddenSideEffect(args, at)) ==
            s.(adapterCalls := s.adapterCalls + [AdapterCall("HIDDEN", args, at, Hidden)])
  {
  }

  /** What the new entries say. A call that is stopped leaves one, with the first check that
      failed; a call that runs the adapter leaves PREPARED and then how it ended. */
  lemma EntriesTell(c: Crypto, s: State, p: Packet, f: Inputs)
    ensures var es, n := Step(c, s, Execute(p, f)).ledger, |s.ledger|;
      n < |es| && es[n].index == n && es[n].timestamp == f.firstNow && es[n].draft.intentHash == IntentHash(c, p) &&
      (f.tes.Some? ==> es[n].draft.kind == TesBlock && es[n].draft.reason == f.tes) &&
      (f.tes.None? && p.nonce in s.consumedNonces ==>
        es[n].draft.kind == NonceReplay && es[n].draft.reason == Some("NONCE_REPLAY")) &&
      (f.tes.None? && p.nonce !in s.consumedNonces && p.signature != Signature(c, p) ==>
        es[n].draft.kind == AuthBlock && es[n].draft.reason == Some("INVALID_SIGNATURE")) &&
      (ReachesVerification(c, s, p, f) && !Verify(c, s.cache, p, f).verified ==>
        es[n].draft.kind == AuthBlock &&
        es[n].draft.reason == Some(Joined(Verify(c, s.cache, p, f).failureReasons))) &&
      (ReachesVerification(c, s, p, f) && Verify(c, s.cache, p, f).verified && f.skipToken ==>
        es[n].draft.kind == TokenMissing && es[n].draft.reason == Some("NO_TOKEN")) &&
      (ReachesVerification(c, s, p, f) && Verify(c, s.cache, p, f).verified && !f.skipToken && f.gate.Some? ==>
        es[n].draft.kind == GateBlock && es[n].draft.reason == f.gate)
  {
  }

  lemma EndingTells(c: Crypto, s: State, p: Packet, f: Inputs)
    requires RunsAdapter(c, s, p, f)
    ensures var es, n := Step(c, s, Execute(p, f)).ledger, |s.ledger|;
      |es| == n + 2 && es[n].draft.kind == Prepared && es[n].draft.reason == None &&
      es[n].draft.payload ==
        Object([Member("action", String(p.action)), Member("target", String(p.target)),
          Member("token_id", String(f.tokenId))]) &&
      es[n + 1].timestamp == f.secondNow &&
      es[n + 1].draft.intentHash == IntentHash(c, p) &&
      (if f.adapterError.Some? then es[n + 1].draft.kind == Failed && es[n + 1].draft.reason == f.adapterError
       else if f.outcome.Some? then es[n + 1].draft.kind == OutcomeInvalid && es[n + 1].draft.reason == f.outcome
       else es[n + 1].draft.kind == Committed && es[n + 1].draft.reason == None)
    ensures Step(c, s, Execute(p, f)).consumedNonces ==
      if f.adapterError.None? && f.outcome.None? then s.consumedNonces + {p.nonce} else s.consumedNonces
  {
  }

  // ---------------------------------------------------------------------
  // What the hashes bind
  // ---------------------------------------------------------------------

  lemma IntentFieldsDistinct()
    ensures Distinct(INTENT_FIELDS)
  {
  }

  /** One intent hash, one intent. */
  lemma IntentHashBinds(c: Crypto, p: Packet, q: Packet)
    requires CollisionFree(c.h) && IntentHash(c, p) == IntentHash(c, q)
    ensures p.intentId == q.intentId && p.action == q.action && p.target == q.target && p.nonce == q.nonce
    ensures Denote(p.parameters) == Denote(q.parameters)
  {
    IntentFieldsDistinct();
    RecordBinds(INTENT_FIELDS, IntentValues(p), IntentValues(q));
    SameIntent(p, q);
  }

  lemma SameIntent(p: Packet, q: Packet)
    requires AllAgree(IntentValues(p), IntentValues(q))
    ensures p.intentId == q.intentId && p.action == q.action && p.target == q.target && p.nonce == q.nonce
    ensures Denote(p.parameters) == Denote(q.parameters)
  {
    var vs, ws := IntentValues(p), IntentValues(q);
    assert Agree(vs, ws, 0) && Agree(vs, ws, 1) && Agree(vs, ws, 2) && Agree(vs, ws, 3) && Agree(vs, ws, 4);
  }

  lemma EntryFieldsDistinct()
    ensures Distinct(ENTRY_FIELDS)
  {
  }

  /** Equal in every hashed field; payloads may differ in key order only. */
  ghost predicate SameEntry(e: Entry, f: Entry) {
    e.index == f.index && e.draft.kind == f.draft.kind && e.draft.reason == f.draft.reason &&
    e.draft.intentHash == f.draft.intentHash && e.timestamp == f.timestamp && e.prevHash == f.prevHash &&
    Denote(e.draft.payload) == Denote(f.draft.payload)
  }

  lemma EntryHashBinds(c: Crypto, e: Entry, f: Entry)
    requires CollisionFree(c.h) && EntryHash(c, e) == EntryHash(c, f)
    ensures SameEntry(e, f)
  {
    EntryFieldsDistinct();
    RecordBinds(ENTRY_FIELDS, EntryValues(e), EntryValues(f));
    SameKinds(e, f);
    SameRest(e, f);
  }

  lemma SameKinds(e: Entry, f: Entry)
    requires AllAgree(EntryValues(e), EntryValues(f))
    ensures e.draft.kind == f.draft.kind && e.draft.reason == f.draft.reason
  {
    var vs, ws := EntryValues(e), EntryValues(f);
    assert Agree(vs, ws, 1) && Agree(vs, ws, 3);
    TextsAgree(KindText(e.draft.kind), KindText(f.draft.kind));
    KindTextBinds(e.draft.kind, f.draft.kind);
    OptionsAgree(e.draft.reason, f.draft.reason);
  }

  lemma SameRest(e: Entry, f: Entry)
    requires AllAgree(EntryValues(e), EntryValues(f))
    ensures e.index == f.index && e.draft.intentHash == f.draft.intentHash && e.timestamp == f.timestamp
    ensures e.prevHash == f.prevHash && Denote(e.draft.payload) == Denote(f.draft.payload)
  {
    var vs, ws := EntryValues(e), EntryValues(f);
    assert Agree(vs, ws, 0) && Agree(vs, ws, 4) && Agree(vs, ws, 5) && Agree(vs, ws, 6) && Agree(vs, ws, 7);
    IntegersAgree(e.index, f.index);
    IntegersAgree(e.timestamp, f.timestamp);
    TextsAgree(e.draft.intentHash, f.draft.intentHash);
    TextsAgree(e.prevHash, f.prevHash);
  }

  /** Length and two letters tell the kinds apart. */
  function KindMark(k: Kind): (nat, char, char) {
    match k
    case TesBlock => (9, 'T', 'K')
    case NonceReplay => (12, 'N', 'Y')
    case AuthBlock => (10, 'A', 'K')
    case TokenMissing => (13, 'T', 'G')
    case GateBlock => (10, 'G', 'K')
    case Prepared => (12, 'W', 'D')
    case Failed => (10, 'W', 'D')
    case OutcomeInvalid => (15, 'O', 'D')
    case Committed => (13, 'W', 'D')
  }

  lemma KindHasMark(k: Kind)
    ensures var t := KindText(k);
      |t| == KindMark(k).0 && t[0] == KindMark(k).1 && t[|t| - 1] == KindMark(k).2
  {
  }

  lemma KindTextBinds(j: Kind, k: Kind)
    requires KindText(j) == KindText(k)
    ensures j == k
  {
    KindHasMark(j);
    KindHasMark(k);
  }

  /** Two harness ledgers that are intact and end in one hash are equal entry by entry. */
  lemma LedgerTamperEvidence(c: Crypto, a: seq<Entry>, b: seq<Entry>)
    requires CollisionFree(c.h) && Avoids(c.h, GENESIS)
    requires Intact(Chain(c), GENESIS, a) && Intact(Chain(c), GENESIS, b)
    requires Tip(Chain(c), GENESIS, a) == Tip(Chain(c), GENESIS, b)
    ensures |a| == |b| && forall i | 0 <= i < |a| :: SameEntry(a[i], b[i]) && a[i].entryHash == b[i].entryHash
  {
    var view := Chain(c);
    var same := (e: Entry, f: Entry) => SameEntry(e, f);
    forall e, f | view.digest(e) == view.digest(f) ensures same(e, f) && view.prev(e) == view.prev(f) {
      EntryHashBinds(c, e, f);
    }
    TamperEvident(view, same, GENESIS, a, b);
  }

  // ---------------------------------------------------------------------
  // The harness
  // ---------------------------------------------------------------------

  class Harness {
    const crypto: Crypto
    var ledger: seq<Entry>
    var adapterCalls: seq<AdapterCall>
    var consumedNonces: set<string>
    var nonceTimestamps: V.Cache  // the control plane's replay cache

    ghost function Snapshot(): State
      reads this
    {
      State(ledger, adapterCalls, consumedNonces, nonceTimestamps)
    }

    constructor (c: Crypto)
      ensures crypto == c && Snapshot() == INITIAL
    {
      crypto := c;
      ledger := [];
      adapterCalls := [];
      consumedNonces := {};
      nonceTimestamps := map[];
    }

    method GetLastHash() returns (last: string)
      ensures last == Tip(Chain(crypto), GENESIS, ledger)
    {
      if |ledger| == 0 {
        return GENESIS;
      }
      last := ledger[|ledger| - 1].entryHash;
    }

    /** appendToLedger; broken stands for the exception of its chain check, which never comes. */
    method AppendToLedger(d: Draft, now: int) returns (broken: bool)
      modifies this`ledger
      ensures !broken && ledger == Append(crypto, old(ledger), d, now)
    {
      var prevHash := GetLastHash();
      var entry := Entry(|ledger|, d, now, prevHash, "");
      entry := entry.(entryHash := EntryHash(crypto, entry));
      if |ledger| > 0 && prevHash != ledger[|ledger| - 1].entryHash {
        return true;
      }
      ledger := ledger + [entry];
      broken := false;
    }

    method Block(p: Packet, kind: Kind, reason: string, now: int)
      modifies this`ledger
      ensures ledger == Append(crypto, old(ledger), Draft(kind, Some(reason), IntentHash(crypto, p), Object([])), now)
    {
      var _ := AppendToLedger(Draft(kind, Some(reason), IntentHash(crypto, p), Object([])), now);
    }

    /** system.execute. */
    method Execute(p: Packet, f: Inputs) returns (allowed: bool)
      modifies this
      ensures Snapshot() == Step(crypto, old(Snapshot()), Op.Execute(p, f))
      ensures allowed <==> Allows(crypto, old(Snapshot()), p, f)
      ensures old(Inv(crypto, Snapshot())) ==> Inv(crypto, Snapshot())
    {
      ghost var before := Snapshot();
      if Inv(crypto, before) {
        StepKeepsInv(crypto, before, Op.Execute(p, f));
      }
      allowed := false;
      if f.tes.Some? {
        Block(p, TesBlock, f.tes.value, f.firstNow);
        return;
      }
      if p.nonce in consumedNonces {
        Block(p, NonceReplay, "NONCE_REPLAY", f.firstNow);
        return;
      }
      if p.signature != Signature(crypto, p) {
        Block(p, AuthBlock, "INVALID_SIGNATURE", f.firstNow);
        return;
      }
      var v := Verify(crypto, nonceTimestamps, p, f);
      nonceTimestamps := V.Remember(nonceTimestamps, EnvelopeOf(p, f), f.verifyNow, f.cleanNow);
      if !v.verified {
        Block(p, AuthBlock, Joined(v.failureReasons), f.firstNow);
        return;
      }
      if f.skipToken {
        Block(p, TokenMissing, "NO_TOKEN", f.firstNow);
        return;
      }
      if f.gate.Some? {
        Block(p, GateBlock, f.gate.value, f.firstNow);
        return;
      }
      allowed := Carry(p, f);
    }

    /** The write-ahead pair around the adapter call. */
    method Carry(p: Packet, f: Inputs) returns (allowed: bool)
      modifies this`ledger, this`adapterCalls, this`consumedNonces
      ensures Snapshot() == Apply(crypto, old(Snapshot()), p, f, Ending(f))
      ensures allowed <==> Ending(f) == Closed(Committed, None)
    {
      allowed := false;
      var _ := AppendToLedger(PreparedDraft(crypto, p, f), f.firstNow);
      adapterCalls := adapterCalls + [AdapterCall(p.action, p.parameters, f.adapterNow, Governed)];
      if f.adapterError.Some? {
        var _ := AppendToLedger(Draft(Failed, f.adapterError, IntentHash(crypto, p), Object([])), f.secondNow);
        return;
      }
      if f.outcome.Some? {
        var _ := AppendToLedger(Draft(OutcomeInvalid, f.outcome, IntentHash(crypto, p), Object([])), f.secondNow);
        return;
      }
      var _ := AppendToLedger(Draft(Committed, None, IntentHash(crypto, p), Object([])), f.secondNow);
      consumedNonces := consumedNonces + {p.nonce};
      allowed := true;
    }
  }
}
