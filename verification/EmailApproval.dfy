/** One-click approval by email: signed tokens, a cache of used nonces, and the table of
    pending approvals behind it.

    The cache is a Set in insertion order, the table a map from its unique nonce column.
    The signature and the payload's text are parameters, and so is whether the database
    answers. Requests are handled one at a time. */
module EmailApproval {
  import opened Wrappers

  const TOKEN_TTL_MS := 15 * 60 * 1000
  const MAX_NONCE_HISTORY := 10_000

  // ---------------------------------------------------------------------
  // Tokens
  // ---------------------------------------------------------------------

  datatype Payload = Payload(intentId: string, proposer: string, approver: string, actionHash: string,
                             expiresAt: int, nonce: string)

  datatype Codec = Codec(write: Payload -> string, read: string -> Option<Payload>, mac: string -> string)

  ghost predicate Faithful(c: Codec) {
    forall p :: c.read(c.write(p)) == Some(p)
  }

  ghost predicate Unforgeable(c: Codec) {
    forall x, y :: c.mac(x) == c.mac(y) ==> x == y
  }

  /** What arrives in the link: two parts around one dot, or not. */
  datatype Token = Misshapen | Token(text: string, mac: string)

  datatype Fault = MalformedToken | BadEncoding | IncompletePayload | BadSignature | ApproverMismatch

  datatype Verdict = Invalid(fault: Fault) | Expired | Used | Valid(payload: Payload)

  predicate Complete(p: Payload) {
    p.intentId != "" && p.proposer != "" && p.approver != "" && p.actionHash != "" && p.expiresAt != 0 && p.nonce != ""
  }

  function NewPayload(intentId: string, proposer: string, approver: string, actionHash: string, now: int,
      nonce: string): Payload {
    Payload(intentId, proposer, approver, actionHash, now + TOKEN_TTL_MS, nonce)
  }

  function Signed(c: Codec, p: Payload): Token {
    Token(c.write(p), c.mac(c.write(p)))
  }

  /** The checks before the nonce is looked up. */
  function Opened(c: Codec, token: Token, now: int): Verdict {
    if token.Misshapen? then Invalid(MalformedToken)
    else match c.read(token.text)
      case None => Invalid(BadEncoding)
      case Some(p) =>
        if !Complete(p) then Invalid(IncompletePayload)
        else if token.mac != c.mac(token.text) then Invalid(BadSignature)
        else if now > p.expiresAt then Expired
        else Valid(p)
  }

  // ---------------------------------------------------------------------
  // The cache and the table
  // ---------------------------------------------------------------------

  datatype Status = PendingReply | Approved | Declined

  datatype Row = Row(intentId: string, status: Status)

  datatype Store = Store(cache: seq<string>, rows: map<string, Row>)

  function Added(cache: seq<string>, nonce: string): seq<string> {
    if nonce in cache then cache else cache + [nonce]
  }

  /** markNonceUsed: once over the limit, all but the newest nine thousand go. */
  function Marked(cache: seq<string>, nonce: string): seq<string> {
    var added := Added(cache, nonce);
    if |added| > MAX_NONCE_HISTORY then added[|added| - MAX_NONCE_HISTORY + 1000..] else added
  }

  predicate UsedInTable(rows: map<string, Row>, nonce: string) {
    nonce in rows && rows[nonce].status != PendingReply
  }

  /** isNonceUsedPersistent, and the cache it leaves. */
  function LookedUp(s: Store, nonce: string, readable: bool): (bool, Store) {
    if nonce in s.cache then (true, s)
    else if readable && UsedInTable(s.rows, nonce) then (true, s.(cache := Added(s.cache, nonce)))
    else (false, s)
  }

  function Verified(c: Codec, s: Store, token: Token, expected: Option<string>, now: int, readable: bool)
    : (Verdict, Store)
  {
    var answer := Opened(c, token, now);
    if !answer.Valid? then (answer, s)
    else
      var p := answer.payload;
      var (used, t) := LookedUp(s, p.nonce, readable);
      if used then (Used, t)
      else if expected.Some? && expected.value != "" && p.approver != expected.value then (Invalid(ApproverMismatch), t)
      else (answer, t)
  }

  function WithStatus(rows: map<string, Row>, intentId: string, status: Status): map<string, Row> {
    map n | n in rows :: if rows[n].intentId == intentId then rows[n].(status := status) else rows[n]
  }

  predicate IntentInTable(rows: map<string, Row>, intentId: string) {
    exists n | n in rows :: rows[n].intentId == intentId
  }

  /** The insert fails, and is ignored, when the database is down or when the intent or
      the nonce already has a row: both columns are unique. */
  predicate Persists(rows: map<string, Row>, p: Payload, writable: bool) {
    writable && p.nonce !in rows && !IntentInTable(rows, p.intentId)
  }

  datatype Op =
    | Send(sent: Payload, writable: bool)
    | Click(token: Token, approve: bool, now: int, readable: bool, writable: bool)
    | Restart

  predicate DatabaseUp(op: Op) {
    match op
    case Send(_, writable) => writable
    case Click(_, _, _, readable, writable) => readable && writable
    case Restart => true
  }

  /** The next store, and the payload whose approval or refusal goes ahead. */
  function Step(c: Codec, s: Store, op: Op): (Store, Option<Payload>) {
    match op
    case Send(p, writable) =>
      (if Persists(s.rows, p, writable) then s.(rows := s.rows[p.nonce := Row(p.intentId, PendingReply)]) else s, None)
    case Click(token, approve, now, readable, writable) =>
      var (verdict, t) := Verified(c, s, token, None, now, readable);
      if !verdict.Valid? then (t, None)
      else
        var p := verdict.payload;
        var rows := if writable then WithStatus(t.rows, p.intentId, if approve then Approved else Declined) else t.rows;
        (Store(Marked(t.cache, p.nonce), rows), Some(p))
    case Restart => (s.(cache := []), None)
  }

  // ---------------------------------------------------------------------
  // What a token is good for
  // ---------------------------------------------------------------------

  /** A token made from complete fields opens to those fields up to and including its last
      millisecond, and is expired from then on. */
  lemma TokenOpensUntilExpiry(c: Codec, p: Payload, now: int)
    requires Faithful(c) && Complete(p)
    ensures Opened(c, Signed(c, p), now) == if now <= p.expiresAt then Valid(p) else Expired
  {
    assert c.read(c.write(p)) == Some(p);
  }

  /** In any store: accepted exactly when it is in time, unused as far as the cache and a
      readable table know, and for the expected approver. */
  lemma TokenVerifiesIff(c: Codec, s: Store, p: Payload, expected: Option<string>, now: int, readable: bool)
    requires Faithful(c) && Complete(p)
    ensures Verified(c, s, Signed(c, p), expected, now, readable).0.Valid? <==>
            now <= p.expiresAt && p.nonce !in s.cache && !(readable && UsedInTable(s.rows, p.nonce)) &&
            (expected.None? || expected.value == "" || expected.value == p.approver)
  {
    TokenOpensUntilExpiry(c, p, now);
  }

  /** A signature carried over to another payload never verifies. */
  lemma AlteredTokenIsRejected(c: Codec, s: Store, p: Payload, text: string, expected: Option<string>, now: int,
      readable: bool)
    requires Unforgeable(c) && text != c.write(p)
    ensures !Verified(c, s, Token(text, Signed(c, p).mac), expected, now, readable).0.Valid?
  {
    assert c.mac(text) != c.mac(c.write(p));
  }

  /** In full: a link is accepted exactly if it opens to complete fields under a signature of
      its own text, is in time, and its nonce is neither in the cache nor, where the table can
      be read, on a row that was answered. */
  lemma AcceptedIff(c: Codec, s: Store, token: Token, approve: bool, now: int, readable: bool, writable: bool,
      p: Payload)
    ensures Step(c, s, Click(token, approve, now, readable, writable)).1 == Some(p) <==>
      token.Token? && c.read(token.text) == Some(p) && token.mac == c.mac(token.text) &&
      p.intentId != "" && p.proposer != "" && p.approver != "" && p.actionHash != "" && p.expiresAt != 0 &&
      p.nonce != "" && now <= p.expiresAt && p.nonce !in s.cache &&
      !(readable && p.nonce in s.rows && s.rows[p.nonce].status != PendingReply)
  {
  }

  /** Which refusal is given, for every token. */
  lemma RefusalTells(c: Codec, s: Store, token: Token, expected: Option<string>, now: int, readable: bool)
    ensures var v := Verified(c, s, token, expected, now, readable).0;
      (v == Invalid(MalformedToken) <==> token.Misshapen?) &&
      (v == Invalid(BadEncoding) <==> token.Token? && c.read(token.text).None?) &&
      (token.Token? && c.read(token.text).Some? ==>
        var p := c.read(token.text).value;
        var inTime := Complete(p) && token.mac == c.mac(token.text) && now <= p.expiresAt;
        var used := p.nonce in s.cache || (readable && p.nonce in s.rows && s.rows[p.nonce].status != PendingReply);
        (v == Invalid(IncompletePayload) <==> !Complete(p)) &&
        (v == Invalid(BadSignature) <==> Complete(p) && token.mac != c.mac(token.text)) &&
        (v.Expired? <==> Complete(p) && token.mac == c.mac(token.text) && now > p.expiresAt) &&
        (v.Used? <==> inTime && used) &&
        (v == Invalid(ApproverMismatch) <==>
          inTime && !used && expected.Some? && expected.value != "" && expected.value != p.approver))
  {
  }

  /** What an accepted link leaves: its nonce last in the cache, and the row of its intent
      APPROVED or DECLINED as the human chose, if the table can be written. */
  lemma AnswerIsRecorded(c: Codec, s: Store, token: Token, approve: bool, now: int, readable: bool, writable: bool)
    requires Step(c, s, Click(token, approve, now, readable, writable)).1.Some?
    ensures var (t, going) := Step(c, s, Click(token, approve, now, readable, writable));
      var p := going.value;
      t.cache != [] && t.cache[|t.cache| - 1] == p.nonce && t.rows.Keys == s.rows.Keys &&
      forall n | n in s.rows ::
        t.rows[n] == if writable && s.rows[n].intentId == p.intentId
                     then Row(p.intentId, if approve then Approved else Declined) else s.rows[n]
  {
  }

  /** A link that is not accepted changes no row. */
  lemma RefusedChangesNoRow(c: Codec, s: Store, token: Token, approve: bool, now: int, readable: bool, writable: bool)
    requires Step(c, s, Click(token, approve, now, readable, writable)).1.None?
    ensures Step(c, s, Click(token, approve, now, readable, writable)).0.rows == s.rows
  {
  }

  // ---------------------------------------------------------------------
  // At most once, across pruning and restarts
  // ---------------------------------------------------------------------

  predicate Takes(c: Codec, s: Store, op: Op, p: Payload) {
    Step(c, s, op).1 == Some(p)
  }

  /** How many of the requests go ahead on one payload. */
  function Accepted(c: Codec, s: Store, ops: seq<Op>, p: Payload): nat
    decreases |ops|
  {
    if ops == [] then 0
    else (if Takes(c, s, ops[0], p) then 1 else 0) + Accepted(c, Step(c, s, ops[0]).0, ops[1..], p)
  }

  predicate HasRow(s: Store, p: Payload) {
    p.nonce in s.rows && s.rows[p.nonce].intentId == p.intentId
  }

  /** One request: the row stays, a used row stays used and blocks, and going ahead uses
      the row up. */
  lemma StepKeepsRow(c: Codec, s: Store, op: Op, p: Payload)
    requires HasRow(s, p) && DatabaseUp(op)
    ensures HasRow(Step(c, s, op).0, p)
    ensures UsedInTable(s.rows, p.nonce) ==> UsedInTable(Step(c, s, op).0.rows, p.nonce) && !Takes(c, s, op, p)
    ensures Takes(c, s, op, p) ==> UsedInTable(Step(c, s, op).0.rows, p.nonce)
  {
  }

  lemma {:induction false} NeverAgain(c: Codec, s: Store, ops: seq<Op>, p: Payload)
    requires HasRow(s, p) && UsedInTable(s.rows, p.nonce)
    requires forall op | op in ops :: DatabaseUp(op)
    ensures Accepted(c, s, ops, p) == 0
    decreases |ops|
  {
    if ops != [] {
      StepKeepsRow(c, s, ops[0], p);
      NeverAgain(c, Step(c, s, ops[0]).0, ops[1..], p);
    }
  }

  lemma {:induction false} PersistedAtMostOnce(c: Codec, s: Store, ops: seq<Op>, p: Payload)
    requires HasRow(s, p)
    requires forall op | op in ops :: DatabaseUp(op)
    ensures Accepted(c, s, ops, p) <= 1
    decreases |ops|
  {
    if ops != [] {
      var t := Step(c, s, ops[0]).0;
      StepKeepsRow(c, s, ops[0], p);
      if Takes(c, s, ops[0], p) {
        NeverAgain(c, t, ops[1..], p);
      } else {
        PersistedAtMostOnce(c, t, ops[1..], p);
      }
    }
  }

  ghost predicate AtMostOnce(c: Codec, s: Store, p: Payload) {
    forall ops | forall op | op in ops :: DatabaseUp(op) :: Accepted(c, s, ops, p) <= 1
  }

  /** Click, restart, click. */
  function Twice(c: Codec, p: Payload): seq<Op> {
    var click := Click(Signed(c, p), true, p.expiresAt, true, true);
    [click, Restart, click]
  }

  lemma UnpersistedAcceptedTwice(c: Codec, s: Store, p: Payload)
    requires Faithful(c) && Complete(p)
    requires p.nonce !in s.rows && p.nonce !in s.cache
    ensures Accepted(c, s, Twice(c, p), p) == 2
  {
    var ops := Twice(c, p);
    var s1 := Step(c, s, ops[0]).0;
    var s2 := Step(c, s1, Restart).0;
    TokenVerifiesIff(c, s, p, None, p.expiresAt, true);
    TokenOpensUntilExpiry(c, p, p.expiresAt);
    TokenVerifiesIff(c, s2, p, None, p.expiresAt, true);
    assert ops[1..] == [Restart, ops[0]] && ops[1..][1..] == [ops[0]];
    assert Accepted(c, s2, [ops[0]], p) == 1 + Accepted(c, Step(c, s2, ops[0]).0, [], p);
    assert Accepted(c, s1, ops[1..], p) == Accepted(c, s2, [ops[0]], p);
  }

  /** With the database up from here on, a token just sent is accepted at most once if and
      only if its insert went through. For a second email about the same intent it does
      not, and the token is mailed all the same. */
  lemma AtMostOnceIffPersisted(c: Codec, s: Store, p: Payload, writable: bool)
    requires Faithful(c) && Complete(p)
    requires p.nonce !in s.rows && p.nonce !in s.cache
    ensures AtMostOnce(c, Step(c, s, Send(p, writable)).0, p) <==> writable && !IntentInTable(s.rows, p.intentId)
  {
    var t := Step(c, s, Send(p, writable)).0;
    if Persists(s.rows, p, writable) {
      forall ops | forall op | op in ops :: DatabaseUp(op) ensures Accepted(c, t, ops, p) <= 1 {
        PersistedAtMostOnce(c, t, ops, p);
      }
    } else {
      UnpersistedAcceptedTwice(c, t, p);
      assert forall op | op in Twice(c, p) :: DatabaseUp(op);
    }
  }

  /** So one intent is approved twice: a second email about it gets no row, and its link
      works after the first was clicked. */
  lemma SecondEmailApprovesAgain(c: Codec, s: Store, p: Payload, q: Payload)
    requires Faithful(c) && Complete(p) && Complete(q) && q.intentId == p.intentId && q.nonce != p.nonce
    requires HasRow(s, p) && !UsedInTable(s.rows, p.nonce) && q.nonce !in s.rows
    requires s.cache == []
    ensures var first := Click(Signed(c, p), true, p.expiresAt, true, true);
      var second := Click(Signed(c, q), true, q.expiresAt, true, true);
      var sent := Step(c, s, Send(q, true)).0;
      Takes(c, sent, first, p) && Takes(c, Step(c, sent, first).0, second, q)
  {
    TokenOpensUntilExpiry(c, p, p.expiresAt);
    TokenOpensUntilExpiry(c, q, q.expiresAt);
  }

  // ---------------------------------------------------------------------
  // The size of the cache
  // ---------------------------------------------------------------------

  /** markNonceUsed on a new nonce leaves a cache within the limit that ends with it and is
      a last part of what was there. */
  lemma MarkedIsSuffix(cache: seq<string>, nonce: string)
    requires nonce !in cache
    ensures var after := Marked(cache, nonce);
      0 < |after| <= MAX_NONCE_HISTORY && after[|after| - 1] == nonce &&
      after == (cache + [nonce])[|cache| + 1 - |after|..] &&
      |after| == if |cache| < 10_000 then |cache| + 1 else 9_000
  {
  }

  /** The limit is broken exactly when a full cache learns from the table that a nonce was
      used: that path adds and never prunes. */
  lemma CacheOverflowsIff(c: Codec, s: Store, op: Op)
    requires |s.cache| <= MAX_NONCE_HISTORY
    ensures |Step(c, s, op).0.cache| > MAX_NONCE_HISTORY <==>
            |s.cache| == MAX_NONCE_HISTORY && op.Click? && Opened(c, op.token, op.now).Valid? &&
            Opened(c, op.token, op.now).payload.nonce !in s.cache && op.readable &&
            UsedInTable(s.rows, Opened(c, op.token, op.now).payload.nonce)
  {
  }

  function Final(c: Codec, s: Store, ops: seq<Op>): Store
    decreases |ops|
  {
    if ops == [] then s else Final(c, Step(c, s, ops[0]).0, ops[1..])
  }

  function Reclicks(c: Codec, ps: seq<Payload>): seq<Op> {
    if ps == [] then [] else [Click(Signed(c, ps[0]), true, ps[0].expiresAt, true, true)] + Reclicks(c, ps[1..])
  }

  /** After a restart, clicking used links again fills the cache without any limit. */
  lemma {:induction false} ReclicksGrowCache(c: Codec, s: Store, ps: seq<Payload>)
    requires Faithful(c)
    requires forall p | p in ps :: Complete(p) && UsedInTable(s.rows, p.nonce) && p.nonce !in s.cache
    requires forall i, j | 0 <= i < j < |ps| :: ps[i].nonce != ps[j].nonce
    ensures |Final(c, s, Reclicks(c, ps)).cache| == |s.cache| + |ps|
    decreases |ps|
  {
    if ps != [] {
      var p := ps[0];
      var op := Click(Signed(c, p), true, p.expiresAt, true, true);
      var t := Step(c, s, op).0;
      TokenOpensUntilExpiry(c, p, p.expiresAt);
      assert t == s.(cache := s.cache + [p.nonce]);
      ReclicksGrowCache(c, t, ps[1..]);
      assert ([op] + Reclicks(c, ps[1..]))[1..] == Reclicks(c, ps[1..]);
    }
  }

  // ---------------------------------------------------------------------
  // The server
  // ---------------------------------------------------------------------

  predicate NoRepeats(cache: seq<string>) {
    forall i, j | 0 <= i < j < |cache| :: cache[i] != cache[j]
  }

  class Server {
    const codec: Codec
    var usedNonces: seq<string>
    var pending: map<string, Row>

    ghost function Snapshot(): Store
      reads this
    {
      Store(usedNonces, pending)
    }

    ghost predicate Valid()
      reads this
    {
      NoRepeats(usedNonces)
    }

    /** A start, or a restart over the table that was left. */
    constructor (c: Codec, rows: map<string, Row>)
      ensures Valid() && codec == c && Snapshot() == Store([], rows)
    {
      codec, usedNonces, pending := c, [], rows;
    }

    method IsNonceUsedPersistent(nonce: string, readable: bool) returns (used: bool)
      requires Valid()
      modifies this`usedNonces
      ensures Valid() && (used, Snapshot()) == LookedUp(old(Snapshot()), nonce, readable)
    {
      if nonce in usedNonces {
        return true;
      }
      used := readable && UsedInTable(pending, nonce);
      if used {
        usedNonces := usedNonces + [nonce];
      }
    }

    method MarkNonceUsed(nonce: string)
      requires Valid()
      modifies this`usedNonces
      ensures Valid() && usedNonces == Marked(old(usedNonces), nonce)
    {
      if nonce !in usedNonces {
        usedNonces := usedNonces + [nonce];
      }
      if |usedNonces| > MAX_NONCE_HISTORY {
        var entries := usedNonces;
        var toRemove := entries[..|entries| - MAX_NONCE_HISTORY + 1000];
        for n := 0 to |toRemove|
          invariant usedNonces == entries[n..]
        {
          usedNonces := Without(usedNonces, toRemove[n]);
        }
      }
    }

    method VerifyApprovalToken(token: Token, expected: Option<string>, now: int, readable: bool)
      returns (verdict: Verdict)
      requires Valid()
      modifies this`usedNonces
      ensures Valid() && (verdict, Snapshot()) == Verified(codec, old(Snapshot()), token, expected, now, readable)
    {
      verdict := Opened(codec, token, now);
      if !verdict.Valid? {
        return;
      }
      var used := IsNonceUsedPersistent(verdict.payload.nonce, readable);
      if used {
        verdict := Used;
      } else if expected.Some? && expected.value != "" && verdict.payload.approver != expected.value {
        verdict := Invalid(ApproverMismatch);
      }
    }

    /** Make the token, store the request if the table takes it, and mail it either way. */
    method SendApprovalEmail(intentId: string, proposer: string, approver: string, actionHash: string, now: int,
                             nonce: string, writable: bool)
      returns (token: Token, payload: Payload)
      modifies this`pending
      ensures payload == Payload(intentId, proposer, approver, actionHash, now + 900_000, nonce)
      ensures token == Token(codec.write(payload), codec.mac(codec.write(payload)))
      ensures payload == NewPayload(intentId, proposer, approver, actionHash, now, nonce) &&
        token == Signed(codec, payload)
      ensures Snapshot() == Step(codec, old(Snapshot()), Send(payload, writable)).0
    {
      payload := NewPayload(intentId, proposer, approver, actionHash, now, nonce);
      token := Signed(codec, payload);
      if Persists(pending, payload, writable) {
        pending := pending[nonce := Row(intentId, PendingReply)];
      }
    }

    /** The approve and decline handlers, up to the call that carries out the answer. */
    method Answer(token: Token, approve: bool, now: int, readable: bool, writable: bool)
      returns (going: Option<Payload>)
      requires Valid()
      modifies this
      ensures Valid()
      ensures (Snapshot(), going) == Step(codec, old(Snapshot()), Click(token, approve, now, readable, writable))
    {
      var verdict := VerifyApprovalToken(token, None, now, readable);
      if !verdict.Valid? {
        return None;
      }
      MarkNonceUsed(verdict.payload.nonce);
      if writable {
        pending := WithStatus(pending, verdict.payload.intentId, if approve then Approved else Declined);
      }
      going := Some(verdict.payload);
    }
  }

  /** Set.delete. */
  function Without(cache: seq<string>, nonce: string): (rest: seq<string>)
    ensures cache != [] && cache[0] == nonce && NoRepeats(cache) ==> rest == cache[1..]
    ensures nonce !in cache ==> rest == cache
  {
    if cache == [] then []
    else if cache[0] == nonce then Without(cache[1..], nonce)
    else [cache[0]] + Without(cache[1..], nonce)
  }
}
