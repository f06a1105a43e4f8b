/** The Python execution gate: any number of threads run execute_action while one lock
    guards the ledger write (legacy/archive/backend/execution_gate.py).

    A thread's program counter is its phase; a schedule says which thread moves next.
    Reading the last hash for a receipt happens outside the lock. Agent, approver and intent
    id come from the token, which may hold any JSON value there; the columns hold text. */
module ExecutionGate {
  import opened Hashing
  import opened Wrappers

  const GENESIS := "GENESIS"

  /** A JSON value in a token field: a number or truth value is written with the text that
      a TEXT column makes of it, and a list, an object or a number beyond 64 bits cannot be bound at all. */
  datatype Item = Text(text: string) | Null | Plain(json: string, column: string) | Unbindable(json: string)

  predicate Bindable(x: Item) {
    !x.Unbindable?
  }

  /** What is read back. */
  function Stored(x: Item): Item {
    if x.Plain? then Text(x.column) else x
  }

  predicate Survives(x: Item) {
    Stored(x) == x
  }

  datatype Body = Body(
    timestamp: string,
    action: string,
    agent: Item,
    approver: Item,
    intentId: Item,
    parametersHash: string,
    executed: bool,
    reason: RowReason,
    receiptHash: string
  )

  datatype RowReason = NoExecutionToken | VerificationFailed(why: Refusal) | Authorized | ExecutionError

  function StoredBody(b: Body): Body {
    b.(agent := Stored(b.agent), approver := Stored(b.approver), intentId := Stored(b.intentId))
  }

  datatype Row = Row(body: Body, prevHash: string, entryHash: string)

  /** _compute_entry_hash over a row's fields, and the receipt's HMAC over a call and the
      ledger hash it is anchored to. */
  datatype Crypto = Crypto(seal: (Body, string) -> string, sign: (Job, string) -> string)

  ghost predicate SealBinds(c: Crypto) {
    forall a, p, b, q :: c.seal(a, p) == c.seal(b, q) ==> a == b && p == q
  }

  function Chain(c: Crypto): View<Row> {
    View((r: Row) => r.prevHash, (r: Row) => r.entryHash, (r: Row) => c.seal(r.body, r.prevHash))
  }

  // ---------------------------------------------------------------------
  // Token verification
  // ---------------------------------------------------------------------

  const MAX_AGE_SECONDS := 300.0

  /** A token as presented: a required field that is absent is empty, an unreadable timestamp
      is None, and an absent other field has its default text. */
  datatype Token = Token(intentId: Item, intent: string, signature: string, timestamp: string,
                         time: Option<real>, approver: Item, agent: Item)

  datatype Refusal = MissingField | InvalidTimestamp | TokenExpired | NoPublicKey | BadSignature

  datatype Verdict =
    | NoToken
    | Refused(agent: Item, intentId: Item, why: Refusal)
    | Allowed(agent: Item, approver: Item, intentId: Item)

  predicate WellFormed(t: Token) {
    |t.intent| > 0 && |t.signature| > 0 && |t.timestamp| > 0
  }

  /** The age is an absolute value: a timestamp up to 300 seconds ahead passes too. */
  predicate Recent(t: Token, now: real) {
    t.time.Some? && -MAX_AGE_SECONDS <= now - t.time.value <= MAX_AGE_SECONDS
  }

  /** verify_token; the signature check is a predicate on the signed message. */
  function VerifyToken(t: Option<Token>, now: real, keyConfigured: bool, genuine: (string, string) -> bool): Verdict {
    if t.None? then NoToken
    else
      var k := t.value;
      if !WellFormed(k) then Refused(k.agent, k.intentId, MissingField)
      else if k.time.None? then Refused(k.agent, k.intentId, InvalidTimestamp)
      else if !Recent(k, now) then Refused(k.agent, k.intentId, TokenExpired)
      else if !keyConfigured then Refused(k.agent, k.intentId, NoPublicKey)
      else if !genuine(k.intent + "|" + k.timestamp, k.signature) then Refused(k.agent, k.intentId, BadSignature)
      else Allowed(k.agent, k.approver, k.intentId)
  }

  /** A token is let through exactly if it is complete, at most 300 seconds old or ahead, and
      signed under a configured key. */
  lemma AllowedIff(t: Option<Token>, now: real, keyConfigured: bool, genuine: (string, string) -> bool)
    ensures VerifyToken(t, now, keyConfigured, genuine).Allowed? <==>
      t.Some? && t.value.intent != "" && t.value.signature != "" && t.value.timestamp != "" && t.value.time.Some? &&
      now <= t.value.time.value + 300.0 && t.value.time.value <= now + 300.0 && keyConfigured &&
      genuine(t.value.intent + "|" + t.value.timestamp, t.value.signature)
  {
  }

  /** The fields that a call would record can all be bound. */
  predicate Storable(v: Verdict) {
    match v
    case NoToken => true
    case Refused(agent, intentId, _) => Bindable(agent) && Bindable(intentId)
    case Allowed(agent, approver, intentId) => Bindable(agent) && Bindable(approver) && Bindable(intentId)
  }

  /** They are read back as they were hashed: texts, or absent. */
  predicate Faithful(v: Verdict) {
    match v
    case NoToken => true
    case Refused(agent, intentId, _) => Survives(agent) && Survives(intentId)
    case Allowed(agent, approver, intentId) => Survives(agent) && Survives(approver) && Survives(intentId)
  }

  // ---------------------------------------------------------------------
  // Calls, threads, the world
  // ---------------------------------------------------------------------

  datatype Effect = Throws | Produces

  datatype Job = Job(action: string, parametersHash: string, verdict: Verdict, effect: Effect)

  /** The ledger hash a receipt is anchored to, and how many rows there were when it was read. */
  datatype Anchor = NoReceipt | Anchor(hash: string, at: nat)

  datatype Phase =
    | Ready
    | Executing
    | Receipting
    | Waiting(anchor: Anchor)
    | Locked(anchor: Anchor)
    | HasRead(anchor: Anchor, prev: string)
    | Inserted(anchor: Anchor, index: nat)
    | Done(anchor: Anchor, index: nat)
    | Raised(anchor: Anchor)

  datatype Thread = Thread(job: Job, phase: Phase)

  /** author[i] is the thread whose insert made row i; executions is the log of executor calls. */
  datatype World = World(
    rows: seq<Row>,
    lock: Option<nat>,
    threads: seq<Thread>,
    author: seq<nat>,
    executions: seq<nat>
  )

  /** The row content of a call, once it is known whether a receipt exists. */
  function BodyOf(c: Crypto, job: Job, anchor: Anchor, timestamp: string): Body {
    var none := Text("NONE");
    match job.verdict
    case NoToken =>
      Body(timestamp, job.action, Text("unknown"), none, none, job.parametersHash, false, NoExecutionToken, "")
    case Refused(agent, intentId, why) =>
      Body(timestamp, job.action, agent, none, intentId, job.parametersHash, false, VerificationFailed(why), "")
    case Allowed(agent, approver, intentId) =>
      if anchor.Anchor?
      then Body(timestamp, job.action, agent, approver, intentId, job.parametersHash, true, Authorized,
                c.sign(job, anchor.hash))
      else Body(timestamp, job.action, agent, approver, intentId, job.parametersHash, false, ExecutionError, "")
  }

  function At(w: World, t: nat, p: Phase): World
    requires t < |w.threads|
  {
    w.(threads := w.threads[t := w.threads[t].(phase := p)])
  }

  /** One step of one thread. A thread that waits for a held lock stays where it is. An insert
      that cannot bind a field raises out of the call, and the lock is let go. */
  function Step(c: Crypto, w: World, t: nat, now: string): World
    requires t < |w.threads|
  {
    var job := w.threads[t].job;
    match w.threads[t].phase
    case Ready => At(w, t, if job.verdict.Allowed? then Executing else Waiting(NoReceipt))
    case Executing =>
      At(w.(executions := w.executions + [t]), t, if job.effect.Throws? then Waiting(NoReceipt) else Receipting)
    case Receipting => At(w, t, Waiting(Anchor(Tip(Chain(c), GENESIS, w.rows), |w.rows|)))
    case Waiting(a) => if w.lock.None? then At(w.(lock := Some(t)), t, Locked(a)) else w
    case Locked(a) => At(w, t, HasRead(a, Tip(Chain(c), GENESIS, w.rows)))
    case HasRead(a, prev) =>
      var body := BodyOf(c, job, a, now);
      if !Storable(job.verdict) then At(w.(lock := None), t, Raised(a))
      else
        At(w.(rows := w.rows + [Row(StoredBody(body), prev, c.seal(body, prev))], author := w.author + [t]), t,
           Inserted(a, |w.rows|))
    case Inserted(a, i) => At(w.(lock := None), t, Done(a, i))
    case Done(_, _) => w
    case Raised(_) => w
  }

  predicate Holds(p: Phase) {
    p.Locked? || p.HasRead? || p.Inserted?
  }

  predicate Finished(p: Phase) {
    p.Inserted? || p.Done?
  }

  /** The call has returned or raised. */
  predicate Settled(p: Phase) {
    p.Done? || p.Raised?
  }

  function AnchorOf(p: Phase): Anchor {
    match p
    case Waiting(a) => a
    case Locked(a) => a
    case HasRead(a, _) => a
    case Inserted(a, _) => a
    case Done(a, _) => a
    case Raised(a) => a
    case _ => NoReceipt
  }

  // ---------------------------------------------------------------------
  // What every step keeps
  // ---------------------------------------------------------------------

  /** At most one thread is between acquire and release, and it is the one the lock names. */
  ghost predicate Exclusive(w: World) {
    (w.lock.Some? ==> w.lock.value < |w.threads|) &&
    forall t | 0 <= t < |w.threads| :: Holds(w.threads[t].phase) <==> w.lock == Some(t)
  }

  /** The hash a thread read under the lock is still the last one. */
  ghost predicate ReadsCurrent(c: Crypto, w: World) {
    forall t | 0 <= t < |w.threads| && w.threads[t].phase.HasRead? ::
      w.threads[t].phase.prev == Tip(Chain(c), GENESIS, w.rows)
  }

  /** Rows and finished calls match one to one. */
  ghost predicate OneRowEach(w: World) {
    |w.author| == |w.rows| &&
    (forall i | 0 <= i < |w.rows| :: InsertedBy(w, w.author[i], i)) &&
    forall t | 0 <= t < |w.threads| && Finished(w.threads[t].phase) ::
      w.threads[t].phase.index < |w.rows| && w.author[w.threads[t].phase.index] == t
  }

  /** Thread t is past the insert that made row i. */
  predicate InsertedBy(w: World, t: nat, i: nat) {
    t < |w.threads| && Finished(w.threads[t].phase) && w.threads[t].phase.index == i
  }

  /** A receipt's ledger hash is GENESIS or the hash of a row that came before its own row. */
  ghost predicate AnchoredBefore(c: Crypto, rows: seq<Row>, th: Thread) {
    var a := AnchorOf(th.phase);
    a.Anchor? ==>
      a.at <= |rows| && a.hash == TipAt(Chain(c), GENESIS, rows, a.at) &&
      (Finished(th.phase) ==> a.at <= th.phase.index)
  }

  ghost predicate Anchored(c: Crypto, w: World) {
    forall t | 0 <= t < |w.threads| :: AnchoredBefore(c, w.rows, w.threads[t])
  }

  /** A call that went past its executor had an allowed token; a receipt exists exactly if
      the executor returned; a row exists only for fields that can be bound. */
  ghost predicate Gated(th: Thread) {
    match th.phase
    case Ready => true
    case Executing => th.job.verdict.Allowed?
    case Receipting => th.job.verdict.Allowed? && th.job.effect.Produces?
    case _ =>
      (AnchorOf(th.phase).Anchor? <==> th.job.verdict.Allowed? && th.job.effect.Produces?) &&
      (Finished(th.phase) ==> Storable(th.job.verdict)) && (th.phase.Raised? ==> !Storable(th.job.verdict))
  }

  /** The row holds what the columns keep of this call, and the hash of what was written. */
  ghost predicate Records(c: Crypto, th: Thread, row: Row) {
    var written := BodyOf(c, th.job, AnchorOf(th.phase), row.body.timestamp);
    row.body == StoredBody(written) && row.entryHash == c.seal(written, row.prevHash)
  }

  /** Each row records the call of the thread that inserted it. */
  ghost predicate RecordsOwnCall(c: Crypto, w: World) {
    forall t | 0 <= t < |w.threads| && Finished(w.threads[t].phase) && w.threads[t].phase.index < |w.rows| ::
      Records(c, w.threads[t], w.rows[w.threads[t].phase.index])
  }

  /** The executor ran exactly for the calls that are past it with an allowed token. */
  predicate PastExecutor(th: Thread) {
    th.job.verdict.Allowed? && !th.phase.Ready? && !th.phase.Executing?
  }

  ghost predicate ExecutionsLogged(w: World) {
    (forall t: nat :: t in w.executions <==> t < |w.threads| && PastExecutor(w.threads[t])) &&
    forall i, j | 0 <= i < j < |w.executions| :: w.executions[i] != w.executions[j]
  }

  ghost predicate Inv(c: Crypto, w: World) {
    Linked(Chain(c), GENESIS, w.rows) && Exclusive(w) && ReadsCurrent(c, w) && OneRowEach(w) &&
    Anchored(c, w) && (forall t | 0 <= t < |w.threads| :: Gated(w.threads[t])) && RecordsOwnCall(c, w) &&
    ExecutionsLogged(w)
  }

  lemma StepKeepsChain(c: Crypto, w: World, t: nat, now: string)
    requires Inv(c, w) && t < |w.threads|
    ensures Linked(Chain(c), GENESIS, Step(c, w, t, now).rows)
  {
    var p := w.threads[t].phase;
    if p.HasRead? {
      var body := BodyOf(c, w.threads[t].job, p.anchor, now);
      LinkedAppend(Chain(c), GENESIS, w.rows, Row(StoredBody(body), p.prev, c.seal(body, p.prev)));
    }
  }

  lemma StepKeepsExclusive(c: Crypto, w: World, t: nat, now: string)
    requires Inv(c, w) && t < |w.threads|
    ensures Exclusive(Step(c, w, t, now))
  {
  }

  lemma StepKeepsReads(c: Crypto, w: World, t: nat, now: string)
    requires Inv(c, w) && t < |w.threads|
    ensures ReadsCurrent(c, Step(c, w, t, now))
  {
    var v := Step(c, w, t, now);
    forall u | 0 <= u < |v.threads| && v.threads[u].phase.HasRead?
      ensures v.threads[u].phase.prev == Tip(Chain(c), GENESIS, v.rows)
    {
      assert u != t ==> Holds(w.threads[u].phase);
    }
  }

  lemma InsertKeepsOneRowEach(w: World, t: nat, row: Row, p: Phase)
    requires OneRowEach(w) && t < |w.threads| && !Finished(w.threads[t].phase)
    requires p.Inserted? && p.index == |w.rows|
    ensures OneRowEach(At(w.(rows := w.rows + [row], author := w.author + [t]), t, p))
  {
    var v := At(w.(rows := w.rows + [row], author := w.author + [t]), t, p);
    forall i | 0 <= i < |v.rows| ensures InsertedBy(v, v.author[i], i) {
      assert i < |w.rows| ==> InsertedBy(w, w.author[i], i);
    }
  }

  lemma MoveKeepsOneRowEach(w: World, v: World, t: nat, p: Phase)
    requires OneRowEach(w) && t < |w.threads| && v.rows == w.rows && v.author == w.author && v.threads == w.threads
    requires Finished(p) <==> Finished(w.threads[t].phase)
    requires Finished(p) ==> p.index == w.threads[t].phase.index
    ensures OneRowEach(At(v, t, p))
  {
    forall i | 0 <= i < |v.rows| ensures InsertedBy(At(v, t, p), v.author[i], i) {
      assert InsertedBy(w, w.author[i], i);
    }
  }

  lemma StepKeepsOneRowEach(c: Crypto, w: World, t: nat, now: string)
    requires Inv(c, w) && t < |w.threads|
    ensures OneRowEach(Step(c, w, t, now))
  {
    var v := Step(c, w, t, now);
    var p := v.threads[t].phase;
    if Finished(p) && !Finished(w.threads[t].phase) {
      InsertKeepsOneRowEach(w, t, v.rows[|w.rows|], p);
    } else if v != w {
      MoveKeepsOneRowEach(w, v.(threads := w.threads), t, p);
    }
  }

  lemma StepKeepsAnchored(c: Crypto, w: World, t: nat, now: string)
    requires Inv(c, w) && t < |w.threads|
    ensures Anchored(c, Step(c, w, t, now))
  {
  }

  /** What a thread has recorded does not depend on how far it is past its insert. */
  lemma RecordsStay(c: Crypto, before: Thread, after: Thread, row: Row)
    requires Records(c, before, row) && after.job == before.job && AnchorOf(after.phase) == AnchorOf(before.phase)
    ensures Records(c, after, row)
  {
  }

  lemma InsertRecords(c: Crypto, w: World, t: nat, now: string)
    requires t < |w.threads| && !Finished(w.threads[t].phase)
    requires Finished(Step(c, w, t, now).threads[t].phase)
    ensures var v := Step(c, w, t, now);
      v.threads[t].phase.index == |w.rows| < |v.rows| && Records(c, v.threads[t], v.rows[|w.rows|])
  {
  }

  lemma StepKeepsRecords(c: Crypto, w: World, t: nat, now: string)
    requires Inv(c, w) && t < |w.threads|
    ensures RecordsOwnCall(c, Step(c, w, t, now))
  {
    var v := Step(c, w, t, now);
    forall u | 0 <= u < |v.threads| && Finished(v.threads[u].phase) && v.threads[u].phase.index < |v.rows|
      ensures Records(c, v.threads[u], v.rows[v.threads[u].phase.index])
    {
      if Finished(w.threads[u].phase) {
        StepKeepsRecord(c, w, t, now, u);
      } else {
        InsertRecords(c, w, t, now);
      }
    }
  }

  lemma StepKeepsRecord(c: Crypto, w: World, t: nat, now: string, u: nat)
    requires Inv(c, w) && t < |w.threads| && u < |w.threads| && Finished(w.threads[u].phase)
    ensures var v := Step(c, w, t, now);
      v.threads[u].phase.index < |v.rows| && Records(c, v.threads[u], v.rows[v.threads[u].phase.index])
  {
    RecordsStay(c, w.threads[u], Step(c, w, t, now).threads[u], w.rows[w.threads[u].phase.index]);
  }

  lemma StepKeepsGated(c: Crypto, w: World, t: nat, now: string)
    requires Inv(c, w) && t < |w.threads|
    ensures var v := Step(c, w, t, now); forall u | 0 <= u < |v.threads| :: Gated(v.threads[u])
  {
  }

  lemma StepKeepsLog(c: Crypto, w: World, t: nat, now: string)
    requires Inv(c, w) && t < |w.threads|
    ensures ExecutionsLogged(Step(c, w, t, now))
  {
  }

  lemma StepKeepsInv(c: Crypto, w: World, t: nat, now: string)
    requires Inv(c, w) && t < |w.threads|
    ensures Inv(c, Step(c, w, t, now))
  {
    StepKeepsChain(c, w, t, now);
    StepKeepsExclusive(c, w, t, now);
    StepKeepsReads(c, w, t, now);
    StepKeepsOneRowEach(c, w, t, now);
    StepKeepsAnchored(c, w, t, now);
    StepKeepsRecords(c, w, t, now);
    StepKeepsGated(c, w, t, now);
    StepKeepsLog(c, w, t, now);
  }

  // ---------------------------------------------------------------------
  // Every interleaving
  // ---------------------------------------------------------------------

  /** An empty ledger, a free lock, and any number of calls about to start. */
  ghost predicate Initial(w: World) {
    w.rows == [] && w.lock.None? && w.author == [] && w.executions == [] &&
    forall t | 0 <= t < |w.threads| :: w.threads[t].phase.Ready?
  }

  /** Which thread moves next, and what the clock says. */
  datatype Turn = Turn(t: nat, now: string)

  function Interleave(c: Crypto, w: World, turns: seq<Turn>): World {
    if |turns| == 0 then w
    else
      var before := Interleave(c, w, turns[..|turns| - 1]);
      var turn := turns[|turns| - 1];
      if turn.t < |before.threads| then Step(c, before, turn.t, turn.now) else before
  }

  lemma {:induction false} InterleavingKeepsInv(c: Crypto, w: World, turns: seq<Turn>)
    requires Initial(w)
    ensures Inv(c, Interleave(c, w, turns))
  {
    if |turns| > 0 {
      InterleavingKeepsInv(c, w, turns[..|turns| - 1]);
      var before := Interleave(c, w, turns[..|turns| - 1]);
      var turn := turns[|turns| - 1];
      if turn.t < |before.threads| {
        StepKeepsInv(c, before, turn.t, turn.now);
      }
    }
  }

  /** Under every interleaving of any number of calls each row links to the one before. */
  lemma LedgerStaysLinked(c: Crypto, w: World, turns: seq<Turn>)
    requires Initial(w)
    ensures Linked(Chain(c), GENESIS, Interleave(c, w, turns).rows)
  {
    InterleavingKeepsInv(c, w, turns);
  }

  lemma WrittenSurvivesIff(c: Crypto, th: Thread, row: Row)
    requires SealBinds(c) && Records(c, th, row)
    ensures row.entryHash == c.seal(row.body, row.prevHash) <==> Faithful(th.job.verdict)
  {
    var written := BodyOf(c, th.job, AnchorOf(th.phase), row.body.timestamp);
    assert StoredBody(written) == written <==> Faithful(th.job.verdict);
  }

  /** Under every interleaving, the ledger passes the integrity check exactly if every
      recorded call had texts, or nothing, where the columns hold text. One number is hashed
      as a number and read back as a text, and the ledger is rejected for good. */
  lemma LedgerIntactIff(c: Crypto, w: World, turns: seq<Turn>)
    requires Initial(w) && SealBinds(c)
    ensures var v := Interleave(c, w, turns);
      Intact(Chain(c), GENESIS, v.rows) <==>
      forall t | 0 <= t < |v.threads| && Finished(v.threads[t].phase) ::
        match v.threads[t].job.verdict
        case NoToken => true
        case Refused(agent, intentId, _) => !agent.Plain? && !intentId.Plain?
        case Allowed(agent, approver, intentId) => !agent.Plain? && !approver.Plain? && !intentId.Plain?
  {
    InterleavingKeepsInv(c, w, turns);
    IntactIffFaithful(c, Interleave(c, w, turns));
  }

  lemma IntactIffFaithful(c: Crypto, v: World)
    requires Inv(c, v) && SealBinds(c)
    ensures Intact(Chain(c), GENESIS, v.rows) <==>
            forall t | 0 <= t < |v.threads| && Finished(v.threads[t].phase) :: Faithful(v.threads[t].job.verdict)
  {
    var view := Chain(c);
    if Intact(view, GENESIS, v.rows) {
      forall t | 0 <= t < |v.threads| && Finished(v.threads[t].phase) ensures Faithful(v.threads[t].job.verdict) {
        var row := v.rows[v.threads[t].phase.index];
        assert view.hash(row) == view.digest(row);
        WrittenSurvivesIff(c, v.threads[t], row);
      }
    } else if forall t | 0 <= t < |v.threads| && Finished(v.threads[t].phase) :: Faithful(v.threads[t].job.verdict) {
      forall i | 0 <= i < |v.rows| ensures view.hash(v.rows[i]) == view.digest(v.rows[i]) {
        assert InsertedBy(v, v.author[i], i);
        WrittenSurvivesIff(c, v.threads[v.author[i]], v.rows[i]);
      }
    }
  }

  lemma StepAppends(c: Crypto, w: World, t: nat, now: string)
    requires t < |w.threads| && !Intact(Chain(c), GENESIS, w.rows)
    ensures !Intact(Chain(c), GENESIS, Step(c, w, t, now).rows)
  {
    var rows := Step(c, w, t, now).rows;
    if rows != w.rows && Intact(Chain(c), GENESIS, rows) {
      assert rows == w.rows + [rows[|w.rows|]];
      IntactDropLast(Chain(c), GENESIS, w.rows, rows[|w.rows|]);
    }
  }

  /** A ledger that is rejected once stays rejected, whatever is done next. */
  lemma {:induction false} RejectedForGood(c: Crypto, w: World, turns: seq<Turn>)
    requires !Intact(Chain(c), GENESIS, w.rows)
    ensures !Intact(Chain(c), GENESIS, Interleave(c, w, turns).rows)
  {
    if |turns| > 0 {
      var before := Interleave(c, w, turns[..|turns| - 1]);
      var turn := turns[|turns| - 1];
      RejectedForGood(c, w, turns[..|turns| - 1]);
      if turn.t < |before.threads| {
        StepAppends(c, before, turn.t, turn.now);
      }
    }
  }

  /** A token that says only {"agent": 7}. */
  const AGENT_SEVEN := Token(Text("UNKNOWN"), "", "", "", None, Text("unknown"), Plain("7", "7"))

  /** One refused call with it is enough. */
  lemma AgentSevenBreaksLedger(c: Crypto, w: World, turns: seq<Turn>, t: nat, at: real, keyConfigured: bool,
                               genuine: (string, string) -> bool)
    requires Initial(w) && SealBinds(c)
    requires var v := Interleave(c, w, turns);
      t < |v.threads| && Finished(v.threads[t].phase) &&
      v.threads[t].job.verdict == VerifyToken(Some(AGENT_SEVEN), at, keyConfigured, genuine)
    ensures !Intact(Chain(c), GENESIS, Interleave(c, w, turns).rows)
  {
    LedgerIntactIff(c, w, turns);
    assert !WellFormed(AGENT_SEVEN);
    assert !Faithful(Refused(Plain("7", "7"), Text("UNKNOWN"), MissingField));
  }

  /** Each finished call added exactly one row, that row records the call, and its receipt,
      which exists exactly if the executor returned, is anchored to GENESIS or an earlier row. */
  lemma FinishedCallAddedOneRow(c: Crypto, w: World, turns: seq<Turn>, t: nat)
    requires Initial(w)
    requires var v := Interleave(c, w, turns); t < |v.threads| && Finished(v.threads[t].phase)
    ensures var v := Interleave(c, w, turns); var p, job := v.threads[t].phase, v.threads[t].job;
      p.index < |v.rows| == |v.author| && (forall i | 0 <= i < |v.author| :: v.author[i] == t <==> i == p.index) &&
      v.rows[p.index].body == StoredBody(BodyOf(c, job, p.anchor, v.rows[p.index].body.timestamp)) &&
      (v.rows[p.index].body.executed <==> job.verdict.Allowed? && job.effect.Produces?) &&
      (p.anchor.Anchor? <==> v.rows[p.index].body.executed) &&
      (p.anchor.Anchor? ==> p.anchor.at <= p.index && p.anchor.hash == TipAt(Chain(c), GENESIS, v.rows, p.anchor.at))
  {
    InterleavingKeepsInv(c, w, turns);
    var v := Interleave(c, w, turns);
    assert Gated(v.threads[t]) && AnchoredBefore(c, v.rows, v.threads[t]);
    assert Records(c, v.threads[t], v.rows[v.threads[t].phase.index]);
    assert forall i | 0 <= i < |v.author| :: InsertedBy(v, v.author[i], i);
  }

  /** Every row comes from exactly one call, which is past its insert. */
  lemma RowsComeFromFinishedCalls(c: Crypto, w: World, turns: seq<Turn>, i: nat)
    requires Initial(w) && i < |Interleave(c, w, turns).rows|
    ensures var v := Interleave(c, w, turns);
      |v.author| == |v.rows| && v.author[i] < |v.threads| && Finished(v.threads[v.author[i]].phase) &&
      v.threads[v.author[i]].phase.index == i
  {
    InterleavingKeepsInv(c, w, turns);
    var v := Interleave(c, w, turns);
    assert InsertedBy(v, v.author[i], i);
  }

  /** A call that has returned or raised has a row exactly if the fields it would record can
      be bound; without one, an allowed call ran its executor and left no trace. */
  lemma SettledCallHasRowIff(c: Crypto, w: World, turns: seq<Turn>, t: nat)
    requires Initial(w)
    requires var v := Interleave(c, w, turns); t < |v.threads| && Settled(v.threads[t].phase)
    ensures var v := Interleave(c, w, turns);
      t in v.author <==>
        match v.threads[t].job.verdict
        case NoToken => true
        case Refused(agent, intentId, _) => !agent.Unbindable? && !intentId.Unbindable?
        case Allowed(agent, approver, intentId) => !agent.Unbindable? && !approver.Unbindable? && !intentId.Unbindable?
  {
    InterleavingKeepsInv(c, w, turns);
    var v := Interleave(c, w, turns);
    assert Gated(v.threads[t]);
    if t in v.author {
      var i :| 0 <= i < |v.author| && v.author[i] == t;
      assert InsertedBy(v, v.author[i], i);
    }
  }

  /** When a call has returned or raised, its executor ran exactly if its token was authentic
      at the moment it was checked. */
  lemma ExecutorRanIffAuthentic(c: Crypto, w: World, turns: seq<Turn>, t: nat, token: Option<Token>, at: real,
                                keyConfigured: bool, genuine: (string, string) -> bool)
    requires Initial(w)
    requires var v := Interleave(c, w, turns);
      t < |v.threads| && Settled(v.threads[t].phase) &&
      v.threads[t].job.verdict == VerifyToken(token, at, keyConfigured, genuine)
    ensures t in Interleave(c, w, turns).executions <==>
      token.Some? && token.value.intent != "" && token.value.signature != "" && token.value.timestamp != "" &&
      token.value.time.Some? && at <= token.value.time.value + 300.0 && token.value.time.value <= at + 300.0 &&
      keyConfigured && genuine(token.value.intent + "|" + token.value.timestamp, token.value.signature)
  {
    InterleavingKeepsInv(c, w, turns);
    AllowedIff(token, at, keyConfigured, genuine);
  }

  /** What the column gives back for a token field. */
  predicate ReadBack(x: Item, y: Item) {
    match x
    case Plain(_, column) => y == Text(column)
    case Text(text) => y == Text(text)
    case Null => y == Null
    case Unbindable(_) => false
  }

  /** The row of a finished call says who: the token's agent and intent id, and the approver
      only if the token was let through. It says executed exactly if the executor returned,
      and then carries the receipt's signature over this call and its anchor. */
  lemma RowTellsToken(c: Crypto, w: World, turns: seq<Turn>, t: nat, token: Token, at: real, keyConfigured: bool,
                      genuine: (string, string) -> bool)
    requires Initial(w)
    requires var v := Interleave(c, w, turns);
      t < |v.threads| && Finished(v.threads[t].phase) &&
      v.threads[t].job.verdict == VerifyToken(Some(token), at, keyConfigured, genuine)
    ensures var v := Interleave(c, w, turns);
      var p, job := v.threads[t].phase, v.threads[t].job;
      p.index < |v.rows| &&
      var row := v.rows[p.index].body;
      row.action == job.action && row.parametersHash == job.parametersHash &&
      ReadBack(token.agent, row.agent) && ReadBack(token.intentId, row.intentId) &&
      (if job.verdict.Allowed? then ReadBack(token.approver, row.approver) else row.approver == Text("NONE")) &&
      (row.executed <==> job.verdict.Allowed? && job.effect == Produces) &&
      (row.executed <==> row.reason == Authorized) &&
      (row.executed ==> p.anchor.Anchor? && row.receiptHash == c.sign(job, p.anchor.hash)) &&
      (!row.executed ==> row.receiptHash == "") &&
      (row.reason == ExecutionError <==> job.verdict.Allowed? && job.effect == Throws)
  {
    FinishedCallAddedOneRow(c, w, turns, t);
    InterleavingKeepsInv(c, w, turns);
    assert Gated(Interleave(c, w, turns).threads[t]);
    VerdictCarries(token, at, keyConfigured, genuine);
  }

  lemma VerdictCarries(token: Token, at: real, keyConfigured: bool, genuine: (string, string) -> bool)
    ensures var v := VerifyToken(Some(token), at, keyConfigured, genuine);
      (v.Allowed? ==> v.agent == token.agent && v.approver == token.approver && v.intentId == token.intentId) &&
      (v.Refused? ==> v.agent == token.agent && v.intentId == token.intentId) && !v.NoToken?
  {
  }

  /** A call without a token is recorded as such. */
  lemma RowWithoutToken(c: Crypto, w: World, turns: seq<Turn>, t: nat)
    requires Initial(w)
    requires var v := Interleave(c, w, turns);
      t < |v.threads| && Finished(v.threads[t].phase) && v.threads[t].job.verdict == NoToken
    ensures var v := Interleave(c, w, turns);
      var p, job := v.threads[t].phase, v.threads[t].job;
      p.index < |v.rows| &&
      var row := v.rows[p.index].body;
      row == Body(row.timestamp, job.action, Text("unknown"), Text("NONE"), Text("NONE"), job.parametersHash, false,
                  NoExecutionToken, "")
  {
    FinishedCallAddedOneRow(c, w, turns, t);
  }

  /** Which check refuses a token, in their order. */
  lemma RefusedBecause(k: Token, now: real, keyConfigured: bool, genuine: (string, string) -> bool, why: Refusal)
    requires VerifyToken(Some(k), now, keyConfigured, genuine) == Refused(k.agent, k.intentId, why)
    ensures var complete := k.intent != "" && k.signature != "" && k.timestamp != "";
      (why == MissingField <==> !complete) && (why == InvalidTimestamp <==> complete && k.time.None?) &&
      (why == TokenExpired <==>
        complete && k.time.Some? && (now > k.time.value + 300.0 || k.time.value > now + 300.0)) &&
      (why == NoPublicKey ==> !keyConfigured) &&
      (why == BadSignature ==> keyConfigured && !genuine(k.intent + "|" + k.timestamp, k.signature))
  {
  }

  /** No executor runs twice for one call, and none runs without an allowed token. */
  lemma ExecutorRunsOnceIfAllowed(c: Crypto, w: World, turns: seq<Turn>)
    requires Initial(w)
    ensures var v := Interleave(c, w, turns);
      (forall t | t in v.executions :: t < |v.threads| && v.threads[t].job.verdict.Allowed?) &&
      (forall i, j | 0 <= i < j < |v.executions| :: v.executions[i] != v.executions[j])
  {
    InterleavingKeepsInv(c, w, turns);
  }

  /** While a call is unfinished some thread can move: the lock never wedges the gate. */
  lemma NeverStuck(c: Crypto, w: World, turns: seq<Turn>, t: nat, now: string) returns (u: nat)
    requires Initial(w)
    requires var v := Interleave(c, w, turns); t < |v.threads| && !Settled(v.threads[t].phase)
    ensures var v := Interleave(c, w, turns);
      u < |v.threads| && Step(c, v, u, now).threads[u].phase != v.threads[u].phase
  {
    InterleavingKeepsInv(c, w, turns);
    u := Movable(c, Interleave(c, w, turns), t, now);
  }

  lemma Movable(c: Crypto, w: World, t: nat, now: string) returns (u: nat)
    requires Exclusive(w) && t < |w.threads| && !Settled(w.threads[t].phase)
    ensures u < |w.threads| && Step(c, w, u, now).threads[u].phase != w.threads[u].phase
  {
    u := if w.lock.Some? && w.threads[t].phase.Waiting? then w.lock.value else t;
    assert Holds(w.threads[u].phase) || w.threads[u].phase == w.threads[t].phase;
  }

  // ---------------------------------------------------------------------
  // The verifier
  // ---------------------------------------------------------------------

  datatype Integrity = Integrity(valid: bool, entriesChecked: nat, firstBroken: Option<nat>, reason: Option<Reason>)

  datatype Reason = LinkMismatch | HashTampered

  ghost predicate Broken(c: Crypto, rows: seq<Row>, i: nat)
    requires i < |rows|
  {
    rows[i].prevHash != TipAt(Chain(c), GENESIS, rows, i) || rows[i].entryHash != c.seal(rows[i].body, rows[i].prevHash)
  }

  /** verify_ledger_integrity: valid exactly for an intact chain, and otherwise it names the
      first broken row, counted from one. */
  method VerifyLedgerIntegrity(c: Crypto, rows: seq<Row>) returns (r: Integrity)
    ensures r.valid <==> Intact(Chain(c), GENESIS, rows)
    ensures r.valid ==> r.entriesChecked == |rows| && r.firstBroken.None? && r.reason.None?
    ensures !r.valid ==>
      r.firstBroken == Some(r.entriesChecked) && 1 <= r.entriesChecked <= |rows| &&
      Broken(c, rows, r.entriesChecked - 1) && (forall i | 0 <= i < r.entriesChecked - 1 :: !Broken(c, rows, i)) &&
      (r.reason == Some(LinkMismatch) <==>
        rows[r.entriesChecked - 1].prevHash != TipAt(Chain(c), GENESIS, rows, r.entriesChecked - 1))
  {
    IntactIffUnbroken(c, rows);
    var prevHash := GENESIS;
    for i := 0 to |rows|
      invariant prevHash == TipAt(Chain(c), GENESIS, rows, i)
      invariant forall k | 0 <= k < i :: !Broken(c, rows, k)
    {
      if rows[i].prevHash != prevHash {
        assert Broken(c, rows, i);
        return Integrity(false, i + 1, Some(i + 1), Some(LinkMismatch));
      }
      var expected := c.seal(rows[i].body, rows[i].prevHash);
      if rows[i].entryHash != expected {
        assert Broken(c, rows, i);
        return Integrity(false, i + 1, Some(i + 1), Some(HashTampered));
      }
      prevHash := rows[i].entryHash;
    }
    r := Integrity(true, |rows|, None, None);
  }

  lemma IntactIffUnbroken(c: Crypto, rows: seq<Row>)
    ensures Intact(Chain(c), GENESIS, rows) <==> forall i | 0 <= i < |rows| :: !Broken(c, rows, i)
  {
    var view := Chain(c);
    assert forall i | 0 <= i < |rows| ::
      Broken(c, rows, i) <==>
      (view.prev(rows[i]) != TipAt(view, GENESIS, rows, i) || view.hash(rows[i]) != view.digest(rows[i]));
  }
}
