/** Device synchronisation: how a device pages through the ledger by the hash it saw last.

    The ledger table is the sequence of its rows in id order. */
module DeviceSync {
  import opened Wrappers

  datatype Row = Row(id: nat, currentHash: string)

  datatype Answer = Answer(incremental: bool, entries: seq<Row>, entryCount: nat, tipHash: Option<string>)

  /** Ids are positive and grow; no hash is empty or occurs twice. */
  ghost predicate IsTable(ledger: seq<Row>) {
    (forall i | 0 <= i < |ledger| :: ledger[i].id > 0 && ledger[i].currentHash != "") &&
    (forall i, j | 0 <= i < j < |ledger| ::
      ledger[i].id < ledger[j].id && ledger[i].currentHash != ledger[j].currentHash)
  }

  function Limited(rows: seq<Row>, limit: nat): seq<Row> {
    if |rows| <= limit then rows else rows[..limit]
  }

  /** The rows with this hash. */
  function WithHash(ledger: seq<Row>, hash: string): seq<Row> {
    if ledger == [] then []
    else (if ledger[0].currentHash == hash then [ledger[0]] else []) + WithHash(ledger[1..], hash)
  }

  /** The rows above this id, in order. */
  function Above(ledger: seq<Row>, id: nat): seq<Row> {
    if ledger == [] then []
    else (if ledger[0].id > id then [ledger[0]] else []) + Above(ledger[1..], id)
  }

  /** performDeviceSync, its ledger part. An empty hash counts as none. */
  function Sync(ledger: seq<Row>, lastKnown: Option<string>, limit: nat): Answer {
    var known := if lastKnown.Some? && lastKnown.value != "" then WithHash(ledger, lastKnown.value) else [];
    Answer(known != [],
           if known != [] then Limited(Above(ledger, known[0].id), limit) else Limited(ledger, limit),
           if ledger == [] then 0 else ledger[|ledger| - 1].id,
           if ledger == [] then None else Some(ledger[|ledger| - 1].currentHash))
  }

  // ---------------------------------------------------------------------
  // One page
  // ---------------------------------------------------------------------

  lemma {:induction false} WithHashAt(ledger: seq<Row>, i: nat)
    requires IsTable(ledger) && i < |ledger|
    ensures WithHash(ledger, ledger[i].currentHash) == [ledger[i]]
  {
    if i == 0 {
      NoneWithHash(ledger[1..], ledger[0].currentHash);
    } else {
      WithHashAt(ledger[1..], i - 1);
    }
  }

  lemma {:induction false} NoneWithHash(ledger: seq<Row>, hash: string)
    requires forall i | 0 <= i < |ledger| :: ledger[i].currentHash != hash
    ensures WithHash(ledger, hash) == []
  {
    if ledger != [] {
      NoneWithHash(ledger[1..], hash);
    }
  }

  lemma {:induction false} AllAbove(ledger: seq<Row>, id: nat)
    requires forall i | 0 <= i < |ledger| :: ledger[i].id > id
    ensures Above(ledger, id) == ledger
  {
    if ledger != [] {
      AllAbove(ledger[1..], id);
    }
  }

  lemma {:induction false} AboveAt(ledger: seq<Row>, i: nat)
    requires IsTable(ledger) && i < |ledger|
    ensures Above(ledger, ledger[i].id) == ledger[i + 1..]
  {
    if i == 0 {
      AllAbove(ledger[1..], ledger[0].id);
    } else {
      var rest := ledger[1..];
      assert rest[i - 1] == ledger[i] && ledger[0].id < ledger[i].id;
      assert Above(ledger, ledger[i].id) == Above(rest, ledger[i].id);
      AboveAt(rest, i - 1);
      assert rest[i..] == ledger[i + 1..];
    }
  }

  /** The hash of a device that holds the first m rows. */
  function LastHash(held: seq<Row>): Option<string> {
    if held == [] then None else Some(held[|held| - 1].currentHash)
  }

  function Min(a: nat, b: nat): nat {
    if a <= b then a else b
  }

  /** A device that holds a first part of the ledger gets exactly the slice after it. */
  lemma PageContinues(ledger: seq<Row>, m: nat, limit: nat)
    requires IsTable(ledger) && m <= |ledger|
    ensures Sync(ledger, LastHash(ledger[..m]), limit).entries == ledger[m..Min(m + limit, |ledger|)]
    ensures Sync(ledger, LastHash(ledger[..m]), limit).incremental <==> m > 0
  {
    LimitedSlice(ledger, m, limit);
    if m > 0 {
      assert LastHash(ledger[..m]) == Some(ledger[m - 1].currentHash);
      WithHashAt(ledger, m - 1);
      AboveAt(ledger, m - 1);
    } else {
      assert ledger[0..] == ledger;
    }
  }

  lemma LimitedSlice(rows: seq<Row>, m: nat, limit: nat)
    requires m <= |rows|
    ensures Limited(rows[m..], limit) == rows[m..Min(m + limit, |rows|)]
  {
  }

  /** A hash that the ledger does not have starts over from the first row. */
  lemma UnknownHashRestarts(ledger: seq<Row>, hash: string, limit: nat)
    requires forall i | 0 <= i < |ledger| :: ledger[i].currentHash != hash
    ensures var answer := Sync(ledger, Some(hash), limit);
      !answer.incremental && answer.entries == ledger[..Min(limit, |ledger|)]
  {
    NoneWithHash(ledger, hash);
  }

  // ---------------------------------------------------------------------
  // A device that keeps asking
  // ---------------------------------------------------------------------

  /** What the device holds after n calls, when call i sees ledgers[i]. */
  function Held(ledgers: seq<seq<Row>>, limit: nat, n: nat): seq<Row>
    requires n <= |ledgers|
  {
    if n == 0 then []
    else
      var held := Held(ledgers, limit, n - 1);
      held + Sync(ledgers[n - 1], LastHash(held), limit).entries
  }

  /** The ledger only grows between calls. */
  ghost predicate Growing(ledgers: seq<seq<Row>>) {
    (forall i | 0 <= i < |ledgers| :: IsTable(ledgers[i])) &&
    (forall i | 0 < i < |ledgers| :: Extends(ledgers[i], ledgers[i - 1]))
  }

  ghost predicate Extends(now: seq<Row>, before: seq<Row>) {
    |before| <= |now| && forall k | 0 <= k < |before| :: now[k] == before[k]
  }

  /** The number of rows held: each call adds a page, or what is left. */
  function HeldCount(ledgers: seq<seq<Row>>, limit: nat, n: nat): nat
    requires n <= |ledgers|
  {
    if n == 0 then 0 else Min(HeldCount(ledgers, limit, n - 1) + limit, |ledgers[n - 1]|)
  }

  lemma PageExtends(ledger: seq<Row>, m: nat, limit: nat)
    requires IsTable(ledger) && m <= |ledger|
    ensures ledger[..m] + Sync(ledger, LastHash(ledger[..m]), limit).entries == ledger[..Min(m + limit, |ledger|)]
  {
    PageContinues(ledger, m, limit);
    var k := Min(m + limit, |ledger|);
    assert ledger[..m] + ledger[m..k] == ledger[..k];
  }

  lemma PrefixAgrees(before: seq<Row>, now: seq<Row>, m: nat)
    requires Extends(now, before) && m <= |before|
    ensures m <= |now| && before[..m] == now[..m]
  {
  }

  /** While rows are appended, the device always holds a first part of the ledger, without
      a gap or a repetition. */
  lemma {:induction false} HoldsPrefix(ledgers: seq<seq<Row>>, limit: nat, n: nat)
    requires Growing(ledgers) && 0 < n <= |ledgers|
    ensures var count := HeldCount(ledgers, limit, n);
      count <= |ledgers[n - 1]| && Held(ledgers, limit, n) == ledgers[n - 1][..count]
  {
    var now := ledgers[n - 1];
    if n == 1 {
      assert now[..0] == [];
      PageExtends(now, 0, limit);
    } else {
      HoldsPrefix(ledgers, limit, n - 1);
      var m := HeldCount(ledgers, limit, n - 1);
      PrefixAgrees(ledgers[n - 2], now, m);
      PageExtends(now, m, limit);
    }
  }

  lemma {:induction false} CountOfCalls(ledger: seq<Row>, limit: nat, calls: nat, n: nat)
    requires n <= calls
    ensures HeldCount(seq(calls, _ => ledger), limit, n) == Min(n * limit, |ledger|)
  {
    if n > 0 {
      CountOfCalls(ledger, limit, calls, n - 1);
      assert n * limit == (n - 1) * limit + limit;
    }
  }

  lemma RebuildsWhen(ledger: seq<Row>, limit: nat, calls: nat)
    requires IsTable(ledger)
    ensures Held(seq(calls, _ => ledger), limit, calls) == ledger <==>
      HeldCount(seq(calls, _ => ledger), limit, calls) == |ledger|
  {
    var ledgers := seq(calls, _ => ledger);
    if calls > 0 {
      assert ledgers[calls - 1] == ledger;
      HoldsPrefix(ledgers, limit, calls);
      WholePrefix(ledger, HeldCount(ledgers, limit, calls));
    }
  }

  /** On a ledger that stands still, the whole of it is there exactly from the call on that
      makes calls * limit reach its length: ceil(length / limit) calls, and no fewer. */
  lemma RebuildsIn(ledger: seq<Row>, limit: nat, calls: nat)
    requires IsTable(ledger) && limit >= 1
    ensures Held(seq(calls, _ => ledger), limit, calls) == ledger <==> calls >= (|ledger| + limit - 1) / limit
  {
    RebuildsWhen(ledger, limit, calls);
    CountOfCalls(ledger, limit, calls, calls);
    CeilIff(|ledger|, limit, calls);
  }

  lemma WholePrefix(ledger: seq<Row>, m: nat)
    requires m <= |ledger|
    ensures ledger[..m] == ledger <==> m == |ledger|
  {
    assert |ledger[..m]| == m;
  }

  lemma ProductGrows(a: nat, b: nat, limit: nat)
    requires a <= b
    ensures a * limit <= b * limit
  {
  }

  lemma CeilIff(n: nat, limit: nat, calls: nat)
    requires limit >= 1
    ensures calls >= (n + limit - 1) / limit <==> calls * limit >= n
  {
    var q := (n + limit - 1) / limit;
    var r := (n + limit - 1) % limit;
    assert n + limit - 1 == q * limit + r;
    if calls >= q {
      ProductGrows(q, calls, limit);
    } else {
      ProductGrows(calls + 1, q, limit);
      assert (calls + 1) * limit == calls * limit + limit;
    }
  }

  // ---------------------------------------------------------------------
  // The entry count
  // ---------------------------------------------------------------------

  lemma {:induction false} IdsOutgrowIndex(ledger: seq<Row>, i: nat)
    requires IsTable(ledger) && i < |ledger|
    ensures ledger[i].id >= i + 1
    ensures ledger[|ledger| - 1].id - ledger[i].id >= |ledger| - 1 - i
    decreases |ledger| - i
  {
    if i > 0 {
      IdsAtLeast(ledger, i);
    }
    if i + 1 < |ledger| {
      IdsOutgrowIndex(ledger, i + 1);
    }
  }

  lemma {:induction false} IdsAtLeast(ledger: seq<Row>, i: nat)
    requires IsTable(ledger) && i < |ledger|
    ensures ledger[i].id >= i + 1
  {
    if i > 0 {
      IdsAtLeast(ledger, i - 1);
    }
  }

  /** The reported count is the last id. It is the number of rows exactly when the ids run
      from one without a gap. */
  lemma EntryCountIff(ledger: seq<Row>, lastKnown: Option<string>, limit: nat)
    requires IsTable(ledger)
    ensures Sync(ledger, lastKnown, limit).entryCount == |ledger| <==>
            forall i | 0 <= i < |ledger| :: ledger[i].id == i + 1
  {
    if ledger != [] && ledger[|ledger| - 1].id == |ledger| {
      forall i | 0 <= i < |ledger| ensures ledger[i].id == i + 1 {
        IdsOutgrowIndex(ledger, i);
      }
    }
  }
}
