/** The append-only ledger table and its hash chain (legacy/one-app/server/db.ts). */
module Ledger {
  import opened Hashing
  import opened Json

  const GENESIS := "GENESIS"

  datatype Entry = Entry(
    entryId: string,
    entryType: string,
    payload: Value,
    hash: string,
    prevHash: string,
    timestamp: int
  )

  const ENTRY_FIELDS := ["entryId", "entryType", "payload", "prevHash", "timestamp"]

  lemma EntryFieldsDistinct()
    ensures Distinct(ENTRY_FIELDS)
  {
  }

  function EntryValues(e: Entry): seq<Value> {
    [String(e.entryId), String(e.entryType), e.payload, String(e.prevHash), Integer(e.timestamp)]
  }

  function ComputeHash(h: Hash, e: Entry): string {
    h(Stringify(Record(ENTRY_FIELDS, EntryValues(e))))
  }

  function Chain(h: Hash): View<Entry> {
    View((e: Entry) => e.prevHash, (e: Entry) => e.hash, (e: Entry) => ComputeHash(h, e))
  }

  /** Equal in every hashed field; payloads may differ in key order only. */
  ghost predicate SameEntry(e: Entry, f: Entry) {
    e.entryId == f.entryId && e.entryType == f.entryType && e.prevHash == f.prevHash &&
    e.timestamp == f.timestamp && Denote(e.payload) == Denote(f.payload)
  }

  lemma HashBindsEntry(h: Hash, e: Entry, f: Entry)
    requires CollisionFree(h) && ComputeHash(h, e) == ComputeHash(h, f)
    ensures SameEntry(e, f)
  {
    EntryFieldsDistinct();
    RecordBinds(ENTRY_FIELDS, EntryValues(e), EntryValues(f));
    SameValues(e, f);
  }

  lemma SameValues(e: Entry, f: Entry)
    requires AllAgree(EntryValues(e), EntryValues(f))
    ensures SameEntry(e, f)
  {
    var vs, ws := EntryValues(e), EntryValues(f);
    assert Agree(vs, ws, 0) && Agree(vs, ws, 1) && Agree(vs, ws, 2) && Agree(vs, ws, 3) && Agree(vs, ws, 4);
    DecimalInjective(e.timestamp, f.timestamp);
  }

  /** If two ledgers pass the audit and end in the same hash, they are equal entry by entry. */
  lemma TamperEvidence(h: Hash, a: seq<Entry>, b: seq<Entry>)
    requires CollisionFree(h) && Avoids(h, GENESIS)
    requires Intact(Chain(h), GENESIS, a) && Intact(Chain(h), GENESIS, b)
    requires Tip(Chain(h), GENESIS, a) == Tip(Chain(h), GENESIS, b)
    ensures |a| == |b|
    ensures forall i | 0 <= i < |a| :: SameEntry(a[i], b[i]) && a[i].hash == b[i].hash
  {
    HashesBind(h);
    Hashing.TamperEvident(Chain(h), Same(), GENESIS, a, b);
  }

  ghost function Same(): (Entry, Entry) -> bool {
    (e, f) => SameEntry(e, f)
  }

  lemma HashesBind(h: Hash)
    requires CollisionFree(h)
    ensures Binding(Chain(h), Same())
  {
    var view := Chain(h);
    forall e, f | view.digest(e) == view.digest(f) ensures Same()(e, f) && view.prev(e) == view.prev(f) {
      HashBindsEntry(h, e, f);
    }
  }

  // ---------------------------------------------------------------------
  // Appending
  // ---------------------------------------------------------------------

  datatype Append = Append(entryId: string, entryType: string, payload: Value, now: int)

  /** The row that an append builds on top of the last row it read. */
  function NewEntry(h: Hash, last: seq<Entry>, op: Append): Entry {
    var e := Entry(op.entryId, op.entryType, op.payload, "", Tip(Chain(h), GENESIS, last), op.now);
    e.(hash := ComputeHash(h, e))
  }

  ghost function Serialised(h: Hash, ops: seq<Append>): seq<Entry> {
    if |ops| == 0 then []
    else
      var before := Serialised(h, ops[..|ops| - 1]);
      before + [NewEntry(h, before, ops[|ops| - 1])]
  }

  lemma NewEntryExtends(h: Hash, rows: seq<Entry>, op: Append)
    requires Intact(Chain(h), GENESIS, rows)
    ensures Intact(Chain(h), GENESIS, rows + [NewEntry(h, rows, op)])
  {
    var e := NewEntry(h, rows, op);
    assert EntryValues(e) == EntryValues(e.(hash := ""));
    IntactAppend(Chain(h), GENESIS, rows, e);
  }

  /** Every ledger built by appends that run one at a time passes the audit. */
  lemma {:induction false} SerialisedIsIntact(h: Hash, ops: seq<Append>)
    ensures |Serialised(h, ops)| == |ops| && Intact(Chain(h), GENESIS, Serialised(h, ops))
  {
    if |ops| > 0 {
      var before := ops[..|ops| - 1];
      SerialisedIsIntact(h, before);
      NewEntryExtends(h, Serialised(h, before), ops[|ops| - 1]);
    }
  }

  /** The store may return payload keys in another order: the audit still passes. */
  lemma StoreMayReorderKeys(h: Hash, rows: seq<Entry>, read: seq<Entry>)
    requires Intact(Chain(h), GENESIS, rows) && |read| == |rows|
    requires forall i | 0 <= i < |rows| :: Valid(rows[i].payload) && Valid(read[i].payload)
    requires forall i | 0 <= i < |rows| :: SameEntry(rows[i], read[i]) && rows[i].hash == read[i].hash
    ensures Intact(Chain(h), GENESIS, read)
  {
    var view := Chain(h);
    forall i | 0 <= i < |read| ensures view.hash(read[i]) == view.digest(read[i]) {
      HashIgnoresKeyOrder(h, rows[i], read[i]);
      assert view.hash(rows[i]) == view.digest(rows[i]);
    }
    forall i | 0 <= i < |read| ensures view.prev(read[i]) == TipAt(view, GENESIS, read, i) {
      assert view.prev(rows[i]) == TipAt(view, GENESIS, rows, i);
    }
  }

  lemma HashIgnoresKeyOrder(h: Hash, e: Entry, f: Entry)
    requires SameEntry(e, f) && Valid(e.payload) && Valid(f.payload)
    ensures ComputeHash(h, e) == ComputeHash(h, f)
  {
    EntryFieldsDistinct();
    RecordRespects(ENTRY_FIELDS, EntryValues(e), EntryValues(f));
  }

  // ---------------------------------------------------------------------
  // Appends that race
  // ---------------------------------------------------------------------

  /** An append whose read of the last row saw this many rows. */
  datatype Racing = Racing(op: Append, seen: nat)

  /** In insert order: a read comes before its own insert and sees no later row. */
  ghost predicate IsSchedule(ops: seq<Racing>) {
    forall i | 0 <= i < |ops| :: ops[i].seen <= i
  }

  /** The table after the first n inserts. */
  ghost function Raced(h: Hash, ops: seq<Racing>, n: nat): (rows: seq<Entry>)
    requires IsSchedule(ops) && n <= |ops|
    ensures |rows| == n
  {
    if n == 0 then []
    else
      var before := Raced(h, ops, n - 1);
      before + [NewEntry(h, before[..ops[n - 1].seen], ops[n - 1].op)]
  }

  /** In an intact ledger no two rows carry the same hash, and none carries GENESIS. */
  lemma TipIsNew(h: Hash, rows: seq<Entry>, k: nat)
    requires CollisionFree(h) && Avoids(h, GENESIS) && Intact(Chain(h), GENESIS, rows) && k <= |rows|
    requires TipAt(Chain(h), GENESIS, rows, k) == Tip(Chain(h), GENESIS, rows)
    ensures k == |rows|
  {
    HashesBind(h);
    Hashing.SameUpTo(Chain(h), Same(), GENESIS, rows, k, rows, |rows|);
  }

  lemma LinkOf(h: Hash, rows: seq<Entry>, seen: nat, op: Append)
    requires seen <= |rows|
    ensures NewEntry(h, rows[..seen], op).prevHash == TipAt(Chain(h), GENESIS, rows, seen)
  {
  }

  /** One insert: the ledger is intact afterwards exactly if it was before and the read saw
      every row. */
  lemma InsertIntactIff(h: Hash, rows: seq<Entry>, seen: nat, op: Append)
    requires CollisionFree(h) && Avoids(h, GENESIS) && seen <= |rows|
    ensures Intact(Chain(h), GENESIS, rows + [NewEntry(h, rows[..seen], op)]) <==>
            Intact(Chain(h), GENESIS, rows) && seen == |rows|
  {
    var e := NewEntry(h, rows[..seen], op);
    LinkOf(h, rows, seen, op);
    if Intact(Chain(h), GENESIS, rows + [e]) {
      IntactDropLast(Chain(h), GENESIS, rows, e);
      TipIsNew(h, rows, seen);
    }
    if Intact(Chain(h), GENESIS, rows) && seen == |rows| {
      assert rows[..seen] == rows;
      NewEntryExtends(h, rows, op);
    }
  }

  lemma RacedStep(h: Hash, ops: seq<Racing>, n: nat)
    requires CollisionFree(h) && Avoids(h, GENESIS) && IsSchedule(ops) && 0 < n <= |ops|
    ensures Intact(Chain(h), GENESIS, Raced(h, ops, n)) <==>
            Intact(Chain(h), GENESIS, Raced(h, ops, n - 1)) && ops[n - 1].seen == n - 1
  {
    InsertIntactIff(h, Raced(h, ops, n - 1), ops[n - 1].seen, ops[n - 1].op);
  }

  /** The first n appends each saw every row before their own. */
  ghost predicate Current(ops: seq<Racing>, n: nat)
    requires n <= |ops|
  {
    forall i | 0 <= i < n :: ops[i].seen == i
  }

  lemma CurrentStep(ops: seq<Racing>, n: nat)
    requires 0 < n <= |ops|
    ensures Current(ops, n) <==> Current(ops, n - 1) && ops[n - 1].seen == n - 1
  {
  }

  /** Whatever is appended, by however many callers and in whatever order they read and
      insert, the audit passes exactly if every append had read the last row: a single
      stale read is reported for good. */
  lemma {:induction false} RacedIntactIff(h: Hash, ops: seq<Racing>, n: nat)
    requires CollisionFree(h) && Avoids(h, GENESIS) && IsSchedule(ops) && n <= |ops|
    ensures Intact(Chain(h), GENESIS, Raced(h, ops, n)) <==> Current(ops, n)
  {
    if n == 0 {
      assert Raced(h, ops, 0) == [];
    } else {
      RacedIntactIff(h, ops, n - 1);
      RacedStep(h, ops, n);
      CurrentStep(ops, n);
    }
  }

  // ---------------------------------------------------------------------
  // The table
  // ---------------------------------------------------------------------

  datatype ChainError = PrevMismatch(entryId: string, index: nat) | HashMismatch(entryId: string, index: nat)

  function Rank(e: ChainError): int {
    2 * e.index + (if e.PrevMismatch? then 0 else 1)
  }

  /** The breaks a report must name: a wrong link or a wrong hash at an index. */
  ghost predicate IsBreak(h: Hash, rows: seq<Entry>, e: ChainError) {
    e.index < |rows| && e.entryId == rows[e.index].entryId &&
    match e
    case PrevMismatch(_, i) => rows[i].prevHash != TipAt(Chain(h), GENESIS, rows, i)
    case HashMismatch(_, i) => rows[i].hash != ComputeHash(h, rows[i])
  }

  /** Each break once, in row order, a wrong link before a wrong hash. */
  ghost predicate Reports(h: Hash, rows: seq<Entry>, errors: seq<ChainError>) {
    (forall e :: e in errors <==> IsBreak(h, rows, e)) &&
    forall i, j | 0 <= i < j < |errors| :: Rank(errors[i]) < Rank(errors[j])
  }

  ghost predicate ReportsUpTo(h: Hash, rows: seq<Entry>, errors: seq<ChainError>, n: nat) {
    (forall e :: e in errors <==> e.index < n && IsBreak(h, rows, e)) &&
    (forall i | 0 <= i < |errors| :: Rank(errors[i]) < 2 * n) &&
    forall i, j | 0 <= i < j < |errors| :: Rank(errors[i]) < Rank(errors[j])
  }

  ghost function BreaksAt(h: Hash, rows: seq<Entry>, i: nat): seq<ChainError>
    requires i < |rows|
  {
    var p, q := PrevMismatch(rows[i].entryId, i), HashMismatch(rows[i].entryId, i);
    (if IsBreak(h, rows, p) then [p] else []) + (if IsBreak(h, rows, q) then [q] else [])
  }

  lemma ExtendReport(h: Hash, rows: seq<Entry>, errors: seq<ChainError>, i: nat)
    requires i < |rows| && ReportsUpTo(h, rows, errors, i)
    ensures ReportsUpTo(h, rows, errors + BreaksAt(h, rows, i), i + 1)
  {
    var found := BreaksAt(h, rows, i);
    forall e ensures e in errors + found <==> e.index < i + 1 && IsBreak(h, rows, e) {
      assert e in errors + found <==> e in errors || e in found;
    }
    forall k | 0 <= k < |found| ensures 2 * i <= Rank(found[k]) < 2 * (i + 1) {
    }
  }

  class LedgerTable {
    const sha256: Hash
    var rows: seq<Entry>

    constructor (h: Hash)
      ensures sha256 == h && rows == []
    {
      sha256 := h;
      rows := [];
    }

    /** appendLedger, with the clock and the fresh id as inputs. */
    method AppendLedger(entryId: string, entryType: string, payload: Value, now: int) returns (entry: Entry)
      modifies this
      ensures entry == NewEntry(sha256, old(rows), Append(entryId, entryType, payload, now))
      ensures rows == old(rows) + [entry]
      ensures entry.entryId == entryId && entry.entryType == entryType && entry.payload == payload
      ensures entry.timestamp == now
      ensures entry.prevHash == if |old(rows)| == 0 then "GENESIS" else old(rows)[|old(rows)| - 1].hash
      ensures entry.hash == ComputeHash(sha256, entry)
      ensures old(Intact(Chain(sha256), GENESIS, rows)) ==> Intact(Chain(sha256), GENESIS, rows)
    {
      if Intact(Chain(sha256), GENESIS, rows) {
        NewEntryExtends(sha256, rows, Append(entryId, entryType, payload, now));
      }
      var prevHash := if |rows| > 0 then rows[|rows| - 1].hash else GENESIS;
      entry := Entry(entryId, entryType, payload, "", prevHash, now);
      assert EntryValues(entry) == EntryValues(entry.(hash := ComputeHash(sha256, entry)));
      entry := entry.(hash := sha256(Stringify(Record(ENTRY_FIELDS, EntryValues(entry)))));
      rows := rows + [entry];
    }

    /** The body of the audit's loop: what is wrong with one row. */
    method CheckRow(i: nat) returns (found: seq<ChainError>)
      requires i < |rows|
      ensures found == BreaksAt(sha256, rows, i)
    {
      found := [];
      var entry := rows[i];
      var expectedPrev := if i == 0 then GENESIS else rows[i - 1].hash;
      if entry.prevHash != expectedPrev {
        found := found + [PrevMismatch(entry.entryId, i)];
      }
      var computed := sha256(Stringify(Record(ENTRY_FIELDS, EntryValues(entry))));
      if computed != entry.hash {
        found := found + [HashMismatch(entry.entryId, i)];
      }
    }

    /** verifyHashChain: sound, complete, and exact about what is broken. */
    method VerifyHashChain() returns (valid: bool, entries: nat, errors: seq<ChainError>)
      ensures valid <==> Intact(Chain(sha256), GENESIS, rows)
      ensures entries == |rows|
      ensures Reports(sha256, rows, errors)
    {
      errors := [];
      var i := 0;
      while i < |rows|
        invariant 0 <= i <= |rows|
        invariant ReportsUpTo(sha256, rows, errors, i)
      {
        var found := CheckRow(i);
        ExtendReport(sha256, rows, errors, i);
        errors := errors + found;
        i := i + 1;
      }
      valid := |errors| == 0;
      NoBreaks(sha256, rows, errors);
      entries := |rows|;
    }
  }

  lemma NoBreaks(h: Hash, rows: seq<Entry>, errors: seq<ChainError>)
    requires forall e :: e in errors <==> IsBreak(h, rows, e)
    ensures |errors| == 0 <==> Intact(Chain(h), GENESIS, rows)
  {
    var view := Chain(h);
    if |errors| == 0 {
      forall i | 0 <= i < |rows| ensures view.prev(rows[i]) == TipAt(view, GENESIS, rows, i)
        && view.hash(rows[i]) == view.digest(rows[i]) {
        assert !IsBreak(h, rows, PrevMismatch(rows[i].entryId, i));
        assert !IsBreak(h, rows, HashMismatch(rows[i].entryId, i));
      }
    } else {
      var e := errors[0];
      assert e in errors;
      var i := e.index;
      if e.PrevMismatch? {
        assert view.prev(rows[i]) != TipAt(view, GENESIS, rows, i);
      } else {
        assert view.hash(rows[i]) != view.digest(rows[i]);
      }
    }
  }
}
