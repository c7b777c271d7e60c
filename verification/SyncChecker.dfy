/**
 Settlement and the Postgres-to-ClickHouse repair pass (backend/sync_checker.py).
 Times are seconds.
 */
module SyncChecker {
  import opened Wrappers
  import opened Payloads
  import opened Consumer
  import opened Outbox

  const SETTLEABLE := {"pending", "processing", "sent_to_kafka", "in_progress"}
  const SETTLE_AGE := 45
  const WINDOW := 7 * 86400
  const CHUNK := 1000

  function StatusPayload(c: Codec, tx: Tx, status: string): map<string, Json> {
    map["transaction_id" := Str(tx.id),
        "parent_id" := (if tx.parentId.Some? then Str(tx.parentId.value) else Null),
        "account_id" := Num(tx.accountId), "amount" := Num(tx.amount), "category" := Str(tx.category),
        "merchant" := Str(tx.merchant), "transaction_type" := Str(tx.transactionType),
        "transaction_side" := Str(tx.transactionSide), "status" := Str(status),
        "timestamp" := Str(c.iso(tx.createdAt))]
  }

  // ---------------------------------------------------------------- settlement

  predicate Due(tx: Tx, now: int) {
    tx.status in SETTLEABLE && tx.createdAt <= now - SETTLE_AGE
  }

  function SettleOne(tx: Tx, now: int): Tx {
    if Due(tx, now) then tx.(status := "cleared") else tx
  }

  function SettledTxs(txs: seq<Tx>, now: int): (r: seq<Tx>)
    ensures |r| == |txs| && forall i :: 0 <= i < |txs| ==> r[i] == SettleOne(txs[i], now)
  {
    seq(|txs|, i requires 0 <= i < |txs| => SettleOne(txs[i], now))
  }

  function SettleEvents(c: Codec, txs: seq<Tx>, now: int): seq<OutboxEvent> {
    if txs == [] then []
    else
      var tx := txs[|txs| - 1];
      SettleEvents(c, txs[..|txs| - 1], now) +
      (if Due(tx, now) then [OutboxEvent("transaction.status_update", StatusPayload(c, tx, "cleared"), Pending)]
          else [])
  }

  lemma SettleEventsStep(c: Codec, txs: seq<Tx>, i: nat, now: int)
    requires i < |txs|
    ensures SettleEvents(c, txs[..i + 1], now) == SettleEvents(c, txs[..i], now) +
      (if Due(txs[i], now)
       then [OutboxEvent("transaction.status_update", StatusPayload(c, txs[i], "cleared"), Pending)] else [])
  {
    assert txs[..i + 1][..i] == txs[..i];
  }

  /** `auto_settle_transactions`: one commit for every row and its event. */
  function Settle(c: Codec, db: Db, now: int): Db {
    Db(SettledTxs(db.txs, now), db.outbox + SettleEvents(c, db.txs, now))
  }

  lemma StatusPayloadFields(c: Codec, tx: Tx, status: string)
    ensures PayloadTx(StatusPayload(c, tx, status)) == if tx.id == "" then None else Some(tx.id)
    ensures Get(StatusPayload(c, tx, status), "status") == Str(status)
  {
  }

  lemma CountOne(e: OutboxEvent, id: string)
    ensures CountFor([e], id) == if PayloadTx(e.payload) == Some(id) then 1 else 0
  {
    assert [e][..0] == [];
    assert CountFor([], id) == 0;
  }

  ghost predicate HasDue(txs: seq<Tx>, now: int, id: string) {
    exists tx :: tx in txs && tx.id == id && Due(tx, now)
  }

  lemma {:induction false} SettleEventsCount(c: Codec, txs: seq<Tx>, now: int, id: string)
    requires UniqueIds(txs) && id != ""
    ensures CountFor(SettleEvents(c, txs, now), id) == if HasDue(txs, now, id) then 1 else 0
  {
    if txs != [] {
      var n := |txs| - 1;
      var tx := txs[n];
      SettleEventsCount(c, txs[..n], now, id);
      assert txs == txs[..n] + [tx];
      assert HasDue(txs, now, id) <==> HasDue(txs[..n], now, id) || (tx.id == id && Due(tx, now));
      if tx.id == id {
        assert !HasDue(txs[..n], now, id) by {
          assert forall i :: 0 <= i < n ==> txs[..n][i].id != id;
        }
      }
      if Due(tx, now) {
        var e := OutboxEvent("transaction.status_update", StatusPayload(c, tx, "cleared"), Pending);
        CountForConcat(SettleEvents(c, txs[..n], now), [e], id);
        assert SettleEvents(c, txs, now) == SettleEvents(c, txs[..n], now) + [e];
        CountOne(e, id);
        StatusPayloadFields(c, tx, "cleared");
        assert PayloadTx(e.payload) == Some(id) <==> tx.id == id;
        assert tx in txs;
        assert HasDue(txs, now, id) || CountFor(SettleEvents(c, txs[..n], now), id) == 0;
        assert CountFor(SettleEvents(c, txs, now), id) ==
            CountFor(SettleEvents(c, txs[..n], now), id) + CountFor([e], id);
      } else {
        assert SettleEvents(c, txs, now) == SettleEvents(c, txs[..n], now);
      }
    }
  }

  /** Each event of a settle pass reports one due transaction as cleared. */
  ghost predicate ReportsCleared(c: Codec, txs: seq<Tx>, now: int, e: OutboxEvent) {
    exists tx :: tx in txs && Due(tx, now)
      && e == OutboxEvent("transaction.status_update", StatusPayload(c, tx, "cleared"), Pending)
  }

  lemma {:induction false} SettleEventsMembers(c: Codec, txs: seq<Tx>, now: int)
    ensures forall e :: e in SettleEvents(c, txs, now) <==> ReportsCleared(c, txs, now, e)
  {
    if txs != [] {
      var n := |txs| - 1;
      SettleEventsMembers(c, txs[..n], now);
      assert txs == txs[..n] + [txs[n]];
      forall e
        ensures e in SettleEvents(c, txs, now) <==> ReportsCleared(c, txs, now, e)
      {
        assert e in SettleEvents(c, txs[..n], now) <==> ReportsCleared(c, txs[..n], now, e);
      }
    }
  }

  /** A transaction of 45 seconds or older whose status is still open. */
  predicate OldAndOpen(tx: Tx, now: int) {
    && now - tx.createdAt >= 45
    && (tx.status == "pending" || tx.status == "processing"
        || tx.status == "sent_to_kafka" || tx.status == "in_progress")
  }

  /** A settle pass is complete and reports itself: exactly the transactions of 45 seconds or older in an open status
      become cleared, nothing else about them or the others changes, and each of them has one new event, saying so. */
  lemma SettleIsComplete(c: Codec, db: Db, now: int)
    requires UniqueIds(db.txs)
    ensures var db' := Settle(c, db, now);
      && |db'.txs| == |db.txs|
      && (forall i :: 0 <= i < |db.txs| ==> !OldAndOpen(db'.txs[i], now))
      && (forall i :: 0 <= i < |db.txs| ==>
            db'.txs[i] == if OldAndOpen(db.txs[i], now) then db.txs[i].(status := "cleared") else db.txs[i])
      && db.outbox <= db'.outbox
    ensures forall i :: 0 <= i < |db.txs| && db.txs[i].id != "" ==>
      CountFor(Settle(c, db, now).outbox[|db.outbox|..], db.txs[i].id) == if OldAndOpen(db.txs[i], now) then 1 else 0
    ensures forall e :: e in Settle(c, db, now).outbox[|db.outbox|..] ==> ReportsCleared(c, db.txs, now, e)
  {
    assert Settle(c, db, now).outbox[|db.outbox|..] == SettleEvents(c, db.txs, now);
    SettleEventsMembers(c, db.txs, now);
    assert forall tx :: Due(tx, now) <==> OldAndOpen(tx, now);
    forall i | 0 <= i < |db.txs| && db.txs[i].id != ""
      ensures CountFor(SettleEvents(c, db.txs, now), db.txs[i].id) == if Due(db.txs[i], now) then 1 else 0
    {
      SettleEventsCount(c, db.txs, now, db.txs[i].id);
      assert db.txs[i] in db.txs;
    }
  }

  // ---------------------------------------------------------------- the status lookup

  predicate About(r: Row, id: string) {
    r.TxRow? && r.transactionId == Str(id)
  }

  /** The id of a transaction row, as text. */
  function RowId(r: Row): string {
    if r.TxRow? && r.transactionId.Str? then r.transactionId.s else ""
  }

  ghost predicate Newest(rows: seq<Row>, id: string, r: Row) {
    r in rows && About(r, id) && forall r' :: r' in rows && About(r', id) ==> r'.eventTime <= r.eventTime
  }

  ghost predicate HasRow(rows: seq<Row>, id: string) {
    exists r :: r in rows && About(r, id)
  }

  /** What ClickHouse may answer to one lookup, newest event first: rows of the table about the ids asked for,
      among them a newest one for each id that has any.  Rows with equal times come in any order, and older or
      merged-away duplicates may be absent. */
  ghost predicate IsAnswer(rows: seq<Row>, ids: seq<string>, a: seq<Row>) {
    && (forall r :: r in a ==> r in rows && About(r, RowId(r)) && RowId(r) in ids)
    && (forall i, j :: 0 <= i < j < |a| ==> a[i].eventTime >= a[j].eventTime)
    && (forall id :: id in ids && HasRow(rows, id) ==> exists r :: r in a && Newest(rows, id, r))
  }

  /** The status map of one answer: the first row of each id wins. */
  function FirstPerId(a: seq<Row>): map<string, Json> {
    if a == [] then map[]
    else
      var m := FirstPerId(a[..|a| - 1]);
      var r := a[|a| - 1];
      if !r.TxRow? || RowId(r) in m then m else m[RowId(r) := r.status]
  }

  /** A newest row of the id carries the status. */
  ghost predicate HasStatus(rows: seq<Row>, id: string, status: Json) {
    exists r :: Newest(rows, id, r) && r.status == status
  }

  /** The ids with rows, each with the status of one of its newest rows. */
  ghost predicate StatusesOf(rows: seq<Row>, ids: seq<string>, m: map<string, Json>) {
    && (forall id :: id in m <==> id in ids && HasRow(rows, id))
    && (forall id :: id in m ==> HasStatus(rows, id, m[id]))
  }

  lemma {:induction false} FirstIndex(a: seq<Row>, id: string) returns (j: nat)
    requires forall r :: r in a ==> About(r, RowId(r))
    ensures id in FirstPerId(a) <==> exists r :: r in a && About(r, id)
    ensures id in FirstPerId(a) ==> j < |a| && About(a[j], id) && a[j].status == FirstPerId(a)[id]
    ensures id in FirstPerId(a) ==> forall i :: 0 <= i < j ==> !About(a[i], id)
  {
    j := 0;
    if a != [] {
      var n := |a| - 1;
      assert forall r :: r in a[..n] ==> r in a;
      j := FirstIndex(a[..n], id);
      assert a == a[..n] + [a[n]];
      assert About(a[n], RowId(a[n]));
      if id in FirstPerId(a) && id !in FirstPerId(a[..n]) {
        j := n;
        forall i | 0 <= i < n
          ensures !About(a[i], id)
        {
          assert a[i] in a[..n];
        }
      }
    }
  }

  lemma FirstIsNewest(rows: seq<Row>, ids: seq<string>, a: seq<Row>, j: nat, id: string)
    requires IsAnswer(rows, ids, a) && id in ids
    requires j < |a| && About(a[j], id) && forall i :: 0 <= i < j ==> !About(a[i], id)
    ensures Newest(rows, id, a[j])
  {
    assert a[j] in a;
    assert HasRow(rows, id);
    var r :| r in a && Newest(rows, id, r);
    var i :| 0 <= i < |a| && a[i] == r;
    assert i == j || j < i;
  }

  /** One query's map gives every id the status of a newest row. */
  lemma SingleQueryStatuses(rows: seq<Row>, ids: seq<string>, a: seq<Row>)
    requires IsAnswer(rows, ids, a)
    ensures StatusesOf(rows, ids, FirstPerId(a))
  {
    var m := FirstPerId(a);
    forall id
      ensures id in m <==> id in ids && HasRow(rows, id)
      ensures id in m ==> HasStatus(rows, id, m[id])
    {
      var j := FirstIndex(a, id);
      if id in m {
        assert a[j] in a;
        FirstIsNewest(rows, ids, a, j, id);
      }
    }
  }

  ghost predicate Distinct(ids: seq<string>) {
    forall i, j :: 0 <= i < j < |ids| ==> ids[i] != ids[j]
  }

  lemma StatusesUnion(rows: seq<Row>, xs: seq<string>, ys: seq<string>, m: map<string, Json>, m': map<string, Json>)
    requires StatusesOf(rows, xs, m) && StatusesOf(rows, ys, m')
    ensures StatusesOf(rows, xs + ys, m + m')
  {
    forall id
      ensures id in m + m' <==> id in xs + ys && HasRow(rows, id)
      ensures id in m + m' ==> HasStatus(rows, id, (m + m')[id])
    {
    }
  }

  function UpTo(i: nat, n: nat): nat {
    if i < n then i else n
  }

  function Slice(ids: seq<string>, k: nat): seq<string> {
    ids[UpTo(k * CHUNK, |ids|)..UpTo((k + 1) * CHUNK, |ids|)]
  }

  /** Adding one answer to the map, row by row: an id that is already there keeps its status. */
  method AddAnswer(ghost chunk: seq<string>, answer: seq<Row>, before: map<string, Json>)
      returns (after: map<string, Json>)
    requires forall r :: r in answer ==> r.TxRow? && RowId(r) in chunk
    requires forall id :: id in chunk ==> id !in before
    ensures after == before + FirstPerId(answer)
  {
    after := before;
    var j := 0;
    while j < |answer|
      invariant 0 <= j <= |answer|
      invariant after == before + FirstPerId(answer[..j])
    {
      var row := answer[j];
      assert row in answer;
      assert answer[..j + 1][..j] == answer[..j];
      if RowId(row) !in after {
        after := after[RowId(row) := row.status];
      }
      j := j + 1;
    }
    assert answer[..j] == answer;
  }

  /** The chunked lookup of `run_sync_check`: slices of 1000 ids, one answer each, the first row of an id wins.
      It gives what a single query gives: every id with rows, with the status of a newest row. */
  method LookupStatuses(ghost rows: seq<Row>, pgIds: seq<string>, answers: seq<seq<Row>>)
    returns (chStatus: map<string, Json>)
    requires Distinct(pgIds)
    requires |answers| * CHUNK >= |pgIds|
    requires forall k :: 0 <= k < |answers| ==> IsAnswer(rows, Slice(pgIds, k), answers[k])
    ensures StatusesOf(rows, pgIds, chStatus)
  {
    chStatus := map[];
    var k := 0;
    while k * CHUNK < |pgIds|
      invariant 0 <= k <= |answers|
      invariant StatusesOf(rows, pgIds[..UpTo(k * CHUNK, |pgIds|)], chStatus)
    {
      ghost var seen := pgIds[..UpTo(k * CHUNK, |pgIds|)];
      ghost var chunk := Slice(pgIds, k);
      ghost var before := chStatus;
      assert seen + chunk == pgIds[..UpTo((k + 1) * CHUNK, |pgIds|)];
      forall id | id in chunk
        ensures id !in before
      {
        var y :| 0 <= y < |chunk| && chunk[y] == id;
        assert pgIds[|seen| + y] == id;
        assert id !in seen;
      }
      chStatus := AddAnswer(chunk, answers[k], chStatus);
      SingleQueryStatuses(rows, chunk, answers[k]);
      StatusesUnion(rows, seen, chunk, before, FirstPerId(answers[k]));
      k := k + 1;
    }
    assert pgIds[..|pgIds|] == pgIds;
  }

  /** The newest rows of an id carry one status. */
  ghost predicate Unambiguous(rows: seq<Row>, id: string) {
    forall r, r' :: Newest(rows, id, r) && Newest(rows, id, r') ==> r.status == r'.status
  }

  lemma SameStatus(rows: seq<Row>, id: string, x: Json, y: Json)
    requires Unambiguous(rows, id) && HasStatus(rows, id, x) && HasStatus(rows, id, y)
    ensures x == y
  {
  }

  lemma StatusesDetermined(rows: seq<Row>, ids: seq<string>, m: map<string, Json>, m': map<string, Json>)
    requires StatusesOf(rows, ids, m) && StatusesOf(rows, ids, m')
    requires forall id :: id in ids ==> Unambiguous(rows, id)
    ensures m == m'
  {
    assert forall id :: id in m <==> id in m';
    forall id | id in m
      ensures m[id] == m'[id]
    {
      assert HasStatus(rows, id, m[id]) && HasStatus(rows, id, m'[id]) && Unambiguous(rows, id);
      SameStatus(rows, id, m[id], m'[id]);
    }
  }

  /** Where the newest rows of every id agree, the chunked lookup and one query over all ids give the same map. */
  lemma ChunksEqualOneQuery(rows: seq<Row>, ids: seq<string>, chunked: map<string, Json>, a: seq<Row>)
    requires StatusesOf(rows, ids, chunked) && IsAnswer(rows, ids, a)
    requires forall id :: id in ids ==> Unambiguous(rows, id)
    ensures chunked == FirstPerId(a)
  {
    SingleQueryStatuses(rows, ids, a);
    StatusesDetermined(rows, ids, chunked, FirstPerId(a));
  }

  // ---------------------------------------------------------------- the repair pass

  function EffectiveStatus(status: string): string {
    if status in {"cleared", "settled", "sent_to_kafka"} then "cleared" else status
  }

  function Windowed(txs: seq<Tx>, now: int): seq<Tx> {
    if txs == [] then []
    else
      var tx := txs[|txs| - 1];
      Windowed(txs[..|txs| - 1], now) + (if tx.createdAt >= now - WINDOW then [tx] else [])
  }

  function Ids(txs: seq<Tx>): seq<string> {
    seq(|txs|, i requires 0 <= i < |txs| => txs[i].id)
  }

  /** What a pass queues for one transaction, if anything. */
  function Repair(tx: Tx, chStatus: map<string, Json>): Option<string> {
    if tx.id !in chStatus then Some("transaction.created")
    else if Str(EffectiveStatus(tx.status)) != chStatus[tx.id] then Some("transaction.status_update")
    else None
  }

  function SyncEvents(c: Codec, txs: seq<Tx>, chStatus: map<string, Json>): seq<OutboxEvent> {
    if txs == [] then []
    else
      var tx := txs[|txs| - 1];
      SyncEvents(c, txs[..|txs| - 1], chStatus) +
      (match Repair(tx, chStatus)
       case None => []
       case Some(kind) => [OutboxEvent(kind, StatusPayload(c, tx, EffectiveStatus(tx.status)), Pending)])
  }

  lemma SyncEventsStep(c: Codec, txs: seq<Tx>, i: nat, chStatus: map<string, Json>)
    requires i < |txs|
    ensures SyncEvents(c, txs[..i + 1], chStatus) == SyncEvents(c, txs[..i], chStatus) +
      (match Repair(txs[i], chStatus)
       case None => []
       case Some(kind) => [OutboxEvent(kind, StatusPayload(c, txs[i], EffectiveStatus(txs[i].status)), Pending)])
  {
    assert txs[..i + 1][..i] == txs[..i];
  }

  /** `run_sync_check` once the statuses are known: settle, then queue the repairs. */
  function SyncPass(c: Codec, db: Db, now: int, chStatus: map<string, Json>): Db {
    var settled := Settle(c, db, now);
    settled.(outbox := settled.outbox + SyncEvents(c, Windowed(settled.txs, now), chStatus))
  }

  lemma {:induction false} WindowedMembers(txs: seq<Tx>, now: int)
    ensures forall tx :: tx in Windowed(txs, now) <==> tx in txs && tx.createdAt >= now - WINDOW
    ensures UniqueIds(txs) ==> UniqueIds(Windowed(txs, now))
  {
    if txs != [] {
      var n := |txs| - 1;
      WindowedMembers(txs[..n], now);
      assert txs == txs[..n] + [txs[n]];
      var w := Windowed(txs[..n], now);
      if UniqueIds(txs) {
        assert UniqueIds(txs[..n]);
        forall tx | tx in w
          ensures tx.id != txs[n].id
        {
          assert tx in txs[..n];
        }
      }
    }
  }

  ghost predicate NeedsRepair(txs: seq<Tx>, chStatus: map<string, Json>, id: string) {
    exists tx :: tx in txs && tx.id == id && Repair(tx, chStatus).Some?
  }

  /** A pass queues exactly one event for each missing or differing transaction and none for the others. */
  lemma {:induction false} SyncEventsCount(c: Codec, txs: seq<Tx>, chStatus: map<string, Json>, id: string)
    requires UniqueIds(txs) && id != ""
    ensures CountFor(SyncEvents(c, txs, chStatus), id) == if NeedsRepair(txs, chStatus, id) then 1 else 0
  {
    if txs != [] {
      var n := |txs| - 1;
      var tx := txs[n];
      SyncEventsCount(c, txs[..n], chStatus, id);
      assert txs == txs[..n] + [tx];
      assert NeedsRepair(txs, chStatus, id) <==>
             NeedsRepair(txs[..n], chStatus, id) || (tx.id == id && Repair(tx, chStatus).Some?);
      if tx.id == id {
        assert !NeedsRepair(txs[..n], chStatus, id) by {
          assert forall i :: 0 <= i < n ==> txs[..n][i].id != id;
        }
      }
      match Repair(tx, chStatus)
      case None =>
        assert SyncEvents(c, txs, chStatus) == SyncEvents(c, txs[..n], chStatus);
      case Some(kind) =>
        var e := OutboxEvent(kind, StatusPayload(c, tx, EffectiveStatus(tx.status)), Pending);
        assert SyncEvents(c, txs, chStatus) == SyncEvents(c, txs[..n], chStatus) + [e];
        CountForConcat(SyncEvents(c, txs[..n], chStatus), [e], id);
        CountOne(e, id);
        StatusPayloadFields(c, tx, EffectiveStatus(tx.status));
        assert PayloadTx(e.payload) == Some(id) <==> tx.id == id;
    }
  }

  /** The event a pass queues for a transaction. */
  ghost predicate Repairs(c: Codec, txs: seq<Tx>, chStatus: map<string, Json>, e: OutboxEvent) {
    exists tx :: tx in txs && Repair(tx, chStatus).Some?
      && e == OutboxEvent(Repair(tx, chStatus).value, StatusPayload(c, tx, EffectiveStatus(tx.status)), Pending)
  }

  lemma {:induction false} SyncEventsMembers(c: Codec, txs: seq<Tx>, chStatus: map<string, Json>)
    ensures forall e :: e in SyncEvents(c, txs, chStatus) <==> Repairs(c, txs, chStatus, e)
  {
    if txs != [] {
      var n := |txs| - 1;
      SyncEventsMembers(c, txs[..n], chStatus);
      assert txs == txs[..n] + [txs[n]];
      forall e
        ensures e in SyncEvents(c, txs, chStatus) <==> Repairs(c, txs, chStatus, e)
      {
        assert e in SyncEvents(c, txs[..n], chStatus) <==> Repairs(c, txs[..n], chStatus, e);
      }
    }
  }

  lemma NothingDue(c: Codec, txs: seq<Tx>, now: int)
    ensures SettleEvents(c, txs, now) == [] <==> forall tx :: tx in txs ==> !Due(tx, now)
    ensures (forall tx :: tx in txs ==> !Due(tx, now)) ==> SettledTxs(txs, now) == txs
  {
    SettleEventsMembers(c, txs, now);
    if SettleEvents(c, txs, now) != [] {
      assert ReportsCleared(c, txs, now, SettleEvents(c, txs, now)[0]);
    }
    forall tx | tx in txs && Due(tx, now)
      ensures SettleEvents(c, txs, now) != []
    {
      assert ReportsCleared(c, txs, now,
          OutboxEvent("transaction.status_update", StatusPayload(c, tx, "cleared"), Pending));
    }
  }

  lemma NothingToRepair(c: Codec, txs: seq<Tx>, chStatus: map<string, Json>)
    ensures SyncEvents(c, txs, chStatus) == [] <==> forall tx :: tx in txs ==> Repair(tx, chStatus).None?
  {
    SyncEventsMembers(c, txs, chStatus);
    if SyncEvents(c, txs, chStatus) != [] {
      assert Repairs(c, txs, chStatus, SyncEvents(c, txs, chStatus)[0]);
    }
    forall tx | tx in txs && Repair(tx, chStatus).Some?
      ensures SyncEvents(c, txs, chStatus) != []
    {
      assert Repairs(c, txs, chStatus,
        OutboxEvent(Repair(tx, chStatus).value, StatusPayload(c, tx, EffectiveStatus(tx.status)), Pending));
    }
  }

  lemma NothingQueued(c: Codec, db: Db, now: int, chStatus: map<string, Json>)
    ensures SyncPass(c, db, now, chStatus).outbox == db.outbox <==>
            && (forall tx :: tx in db.txs ==> !Due(tx, now))
            && (forall tx :: tx in db.txs && tx.createdAt >= now - WINDOW ==>
                  tx.id in chStatus && chStatus[tx.id] == Str(EffectiveStatus(tx.status)))
  {
    NothingDue(c, db.txs, now);
    var txs := SettledTxs(db.txs, now);
    WindowedMembers(txs, now);
    NothingToRepair(c, Windowed(txs, now), chStatus);
    var settle := SettleEvents(c, db.txs, now);
    var sync := SyncEvents(c, Windowed(txs, now), chStatus);
    assert |SyncPass(c, db, now, chStatus).outbox| == |db.outbox| + |settle| + |sync|;
    if settle == [] && sync == [] {
      assert SyncPass(c, db, now, chStatus).outbox == db.outbox;
    }
  }

  /** ClickHouse has the transaction's status, as it counts: settled and sent ones as cleared. */
  predicate InStep(tx: Tx, chStatus: map<string, Json>) {
    && tx.id in chStatus
    && chStatus[tx.id] == Str(if tx.status == "settled" || tx.status == "sent_to_kafka" then "cleared" else tx.status)
  }

  /** What a pass queues for a transaction: nothing if ClickHouse is in step, otherwise a created event if it has no
      status, and a status update if it has another one. */
  lemma RepairExactly(tx: Tx, chStatus: map<string, Json>)
    ensures Repair(tx, chStatus) ==
      if InStep(tx, chStatus) then None
      else Some(if tx.id in chStatus then "transaction.status_update" else "transaction.created")
  {
  }

  /** A pass queues nothing exactly when nothing is old and open and ClickHouse is in step with every transaction of
      the last seven days. */
  lemma QueuesNothing(c: Codec, db: Db, now: int, chStatus: map<string, Json>)
    ensures SyncPass(c, db, now, chStatus).outbox == db.outbox <==>
            && (forall tx :: tx in db.txs ==> !OldAndOpen(tx, now))
            && (forall tx :: tx in db.txs && tx.createdAt >= now - 604_800 ==> InStep(tx, chStatus))
  {
    assert forall tx :: Due(tx, now) <==> OldAndOpen(tx, now);
    NothingQueued(c, db, now, chStatus);
    forall tx
      ensures InStep(tx, chStatus) <==> tx.id in chStatus && chStatus[tx.id] == Str(EffectiveStatus(tx.status))
    {
    }
  }
}
