/**
 The repair pass reaches a fixpoint: after one pass of the sync checker, once the relay and the consumer have
 caught up, the next pass finds nothing to queue.
 */
module RepairPass {
  import opened Wrappers
  import opened Payloads
  import opened Consumer
  import opened Delivery
  import opened Outbox
  import opened SyncChecker
  import opened Pipeline
  import opened RowColumns

  // ---------------------------------------------------------------- what a pass queues

  /** The event tells the effective status of a transaction of the table. */
  ghost predicate Tells(c: Codec, txs: seq<Tx>, e: OutboxEvent) {
    && e.eventType != "activity_event"
    && exists tx :: tx in txs && e.payload == StatusPayload(c, tx, EffectiveStatus(tx.status))
  }

  lemma SettleEventsTell(c: Codec, txs: seq<Tx>, now: int)
    ensures forall e :: e in SettleEvents(c, txs, now) ==> Tells(c, SettledTxs(txs, now), e)
  {
    SettleEventsMembers(c, txs, now);
    forall e | e in SettleEvents(c, txs, now)
      ensures Tells(c, SettledTxs(txs, now), e)
    {
      assert ReportsCleared(c, txs, now, e);
      var tx :| tx in txs && Due(tx, now) && e.payload == StatusPayload(c, tx, "cleared");
      var i :| 0 <= i < |txs| && txs[i] == tx;
      assert SettledTxs(txs, now)[i] == tx.(status := "cleared");
      assert e.payload == StatusPayload(c, SettledTxs(txs, now)[i], "cleared");
    }
  }

  lemma SyncEventsTell(c: Codec, txs: seq<Tx>, now: int, chStatus: map<string, Json>)
    ensures forall e :: e in SyncEvents(c, Windowed(txs, now), chStatus) ==> Tells(c, txs, e)
  {
    WindowedMembers(txs, now);
    SyncEventsMembers(c, Windowed(txs, now), chStatus);
    forall e | e in SyncEvents(c, Windowed(txs, now), chStatus)
      ensures Tells(c, txs, e)
    {
      assert Repairs(c, Windowed(txs, now), chStatus, e);
    }
  }

  lemma PassTells(c: Codec, db: Db, now: int, chStatus: map<string, Json>, i: nat)
    requires |db.outbox| <= i < |SyncPass(c, db, now, chStatus).outbox|
    ensures Tells(c, SettledTxs(db.txs, now), SyncPass(c, db, now, chStatus).outbox[i])
  {
    var txs := SettledTxs(db.txs, now);
    var settle := SettleEvents(c, db.txs, now);
    var sync := SyncEvents(c, Windowed(txs, now), chStatus);
    SettleEventsTell(c, db.txs, now);
    SyncEventsTell(c, txs, now, chStatus);
    if i < |db.outbox| + |settle| {
      assert SyncPass(c, db, now, chStatus).outbox[i] == settle[i - |db.outbox|];
      assert settle[i - |db.outbox|] in settle;
    } else {
      assert SyncPass(c, db, now, chStatus).outbox[i] == sync[i - |db.outbox| - |settle|];
      assert sync[i - |db.outbox| - |settle|] in sync;
    }
  }

  /** A windowed transaction that is missing or differs gets an event of the pass. */
  lemma RepairIsQueued(c: Codec, db: Db, now: int, chStatus: map<string, Json>, tx: Tx) returns (i: nat)
    requires tx in SettledTxs(db.txs, now) && tx.createdAt >= now - WINDOW && Repair(tx, chStatus).Some?
    ensures |db.outbox| <= i < |SyncPass(c, db, now, chStatus).outbox|
    ensures SyncPass(c, db, now, chStatus).outbox[i] ==
      OutboxEvent(Repair(tx, chStatus).value, StatusPayload(c, tx, EffectiveStatus(tx.status)), Pending)
  {
    var txs := SettledTxs(db.txs, now);
    var settle := SettleEvents(c, db.txs, now);
    var sync := SyncEvents(c, Windowed(txs, now), chStatus);
    var e := OutboxEvent(Repair(tx, chStatus).value, StatusPayload(c, tx, EffectiveStatus(tx.status)), Pending);
    WindowedMembers(txs, now);
    SyncEventsMembers(c, Windowed(txs, now), chStatus);
    assert Repairs(c, Windowed(txs, now), chStatus, e);
    assert SyncPass(c, db, now, chStatus).outbox == db.outbox + settle + sync;
    var j :| 0 <= j < |sync| && sync[j] == e;
    i := |db.outbox| + |settle| + j;
  }

  /** The columns of such a row that come from the transaction itself. */
  ghost predicate HasColumns(tx: Tx, r: Row) {
    && r.TxRow? && r.transactionId == Str(tx.id) && r.accountId == Num(tx.accountId) && r.amount == Num(tx.amount)
    && r.category == Str(tx.category) && r.merchant == Str(tx.merchant)
    && r.transactionType == Str(if tx.transactionType == "" then "expense" else tx.transactionType)
    && r.transactionSide == Str(tx.transactionSide)
    && r.parentId == Str(if tx.parentId.Some? && tx.parentId.value != "" then tx.parentId.value
                         else "00000000-0000-0000-0000-000000000000")
  }

  /** The row of such an event: the transaction's columns and its status, with settled and sent ones told as cleared,
      at the creation time as it is printed and parsed again. */
  ghost predicate IsReport(c: Codec, tx: Tx, r: Row) {
    && HasColumns(tx, r)
    && r.status == Str(if tx.status == "settled" || tx.status == "sent_to_kafka" then "cleared" else tx.status)
    && c.time(Str(c.iso(tx.createdAt))) == Some(r.eventTime)
  }

  /** A payload that gives these columns of a transaction. */
  ghost predicate GivesColumns(c: Codec, tx: Tx, status: string, m: map<string, Json>) {
    && {"transaction_id", "account_id", "amount", "category", "merchant", "timestamp"} <= m.Keys
    && m["transaction_id"] == Str(tx.id) && m["account_id"] == Num(tx.accountId) && m["amount"] == Num(tx.amount)
    && m["category"] == Str(tx.category) && m["merchant"] == Str(tx.merchant)
    && m["timestamp"] == Str(c.iso(tx.createdAt)) && Column(m, "status", "pending") == Str(status)
    && Column(m, "parent_id", "00000000-0000-0000-0000-000000000000") ==
         Str(if tx.parentId.Some? && tx.parentId.value != "" then tx.parentId.value
             else "00000000-0000-0000-0000-000000000000")
    && Column(m, "transaction_type", "expense") ==
         Str(if tx.transactionType == "" then "expense" else tx.transactionType)
    && Column(m, "transaction_side", "") == Str(tx.transactionSide)
  }

  lemma StatusOptional(c: Codec, tx: Tx, status: string)
    ensures var m := StatusPayload(c, tx, status);
      && Get(m, "status") == Str(status) && Get(m, "transaction_side") == Str(tx.transactionSide)
      && Get(m, "transaction_type") == Str(tx.transactionType)
      && Get(m, "parent_id") == if tx.parentId.Some? then Str(tx.parentId.value) else Null
  {
  }

  lemma ColumnOf(m: map<string, Json>, key: string, default: string)
    ensures Column(m, key, default) ==
      if Get(m, key) in {Null, Num(0), Str(""), Arr([]), Obj(map[])} then Str(default) else Get(m, key)
  {
  }

  lemma StatusColumns(c: Codec, tx: Tx, status: string)
    requires status != ""
    ensures GivesColumns(c, tx, status, StatusPayload(c, tx, status))
  {
    var m := StatusPayload(c, tx, status);
    StatusOptional(c, tx, status);
    ColumnOf(m, "status", "pending");
    ColumnOf(m, "parent_id", "00000000-0000-0000-0000-000000000000");
    ColumnOf(m, "transaction_type", "expense");
    ColumnOf(m, "transaction_side", "");
  }

  lemma ColumnsTold(c: Codec, tx: Tx, status: string, m: map<string, Json>, r: Row)
    requires GivesColumns(c, tx, status, m) && TellsTx(c, m, r)
    ensures HasColumns(tx, r) && r.status == Str(status)
    ensures c.time(Str(c.iso(tx.createdAt))) == Some(r.eventTime)
  {
  }

  lemma ReportRow(c: Codec, e: OutboxEvent, tx: Tx)
    requires TimesParse(c) && EffectiveStatus(tx.status) != "" && e.eventType != "activity_event"
    requires e.payload == StatusPayload(c, tx, EffectiveStatus(tx.status))
    ensures EventRow(c, e).Some? && IsReport(c, tx, EventRow(c, e).value)
  {
    assert c.time(Str(c.iso(tx.createdAt))).Some?;
    assert Required(Transactions) <= e.payload.Keys;
    RowExactly(c, Transactions, Obj(e.payload));
    StatusColumns(c, tx, EffectiveStatus(tx.status));
    ColumnsTold(c, tx, EffectiveStatus(tx.status), e.payload, EventRow(c, e).value);
  }

  // ---------------------------------------------------------------- the run in between

  predicate RelayOrConsume(steps: seq<WStep>) {
    forall st :: st in steps ==> st.Relay? || st.Consume?
  }

  lemma {:induction false} CatchingUpKeepsEvents(c: Codec, w: World, steps: seq<WStep>)
    requires Possible(c, w, steps) && RelayOrConsume(steps)
    ensures var w' := After(c, w, steps);
      && |w'.db.outbox| == |w.db.outbox| && |w'.db.txs| == |w.db.txs|
      && forall i :: 0 <= i < |w.db.outbox| ==>
           && w'.db.outbox[i].eventType == w.db.outbox[i].eventType
           && w'.db.outbox[i].payload == w.db.outbox[i].payload
           && (!w.db.outbox[i].status.Pending? ==> w'.db.outbox[i].status == w.db.outbox[i].status)
    decreases |steps|
  {
    if steps != [] {
      assert steps[0] in steps;
      CatchingUpKeepsEvents(c, Next(c, w, steps[0]), steps[1..]);
    }
  }

  lemma TerminalRunKeepsTxs(c: Codec, w: World, steps: seq<WStep>)
    requires Possible(c, w, steps) && RelayOrConsume(steps)
    requires forall tx :: tx in w.db.txs ==> tx.status in TERMINAL
    ensures After(c, w, steps).db.txs == w.db.txs
  {
    CatchingUpKeepsEvents(c, w, steps);
    TerminalIsFinal(c, w, steps);
    var txs := After(c, w, steps).db.txs;
    forall i | 0 <= i < |txs|
      ensures txs[i] == w.db.txs[i]
    {
      assert w.db.txs[i] in w.db.txs;
    }
  }

  // ---------------------------------------------------------------- the fixpoint

  /** ClickHouse has no row of the transaction, or every newest one has the status the pass compares with. */
  ghost predicate MissingOrAgreeing(rows: seq<Row>, tx: Tx) {
    forall r :: Newest(rows, tx.id, r) ==> r.status == Str(EffectiveStatus(tx.status))
  }

  /** Every gained row is the report of a transaction. */
  ghost predicate GainedTell(c: Codec, had: seq<Row>, rows: seq<Row>, txs: seq<Tx>) {
    forall r :: r in rows && r !in had ==> exists tx :: tx in txs && IsReport(c, tx, r)
  }

  /** Gained rows about a transaction are reports of that one. */
  lemma GainedAbout(c: Codec, had: seq<Row>, rows: seq<Row>, txs: seq<Tx>, tx: Tx, r: Row)
    requires GainedTell(c, had, rows, txs) && UniqueIds(txs) && tx in txs
    requires r in rows && r !in had && About(r, tx.id)
    ensures IsReport(c, tx, r)
  {
    var tx' :| tx' in txs && IsReport(c, tx', r);
    var i :| 0 <= i < |txs| && txs[i] == tx;
    var j :| 0 <= j < |txs| && txs[j] == tx';
    assert i == j;
  }

  lemma CatchUpGains(c: Codec, w: World, txs: seq<Tx>, steps: seq<WStep>)
    requires Lawful(c) && TimesParse(c) && Drained(w.k) && Possible(c, w, steps) && RelayOrConsume(steps)
    requires forall tx :: tx in txs ==> tx.status in TERMINAL
    requires forall i :: 0 <= i < |w.db.outbox| && w.db.outbox[i].status.Pending? ==> Tells(c, txs, w.db.outbox[i])
    requires Drained(After(c, w, steps).k)
    ensures var w' := After(c, w, steps);
      && w.k.rows <= w'.k.rows && GainedTell(c, w.k.rows, w'.k.rows, txs) && |w'.db.outbox| == |w.db.outbox|
      && forall i: nat :: i < |w.db.outbox| && w.db.outbox[i].status.Pending? && w'.db.outbox[i].status.Processed? ==>
           EventRow(c, w.db.outbox[i]).Some? && EventRow(c, w.db.outbox[i]).value in w'.k.rows
  {
    var w' := After(c, w, steps);
    CatchingUpKeepsEvents(c, w, steps);
    forall i: nat | i < |w'.db.outbox| && Active(w.db.outbox, i)
      ensures EventRow(c, w'.db.outbox[i]) == EventRow(c, w.db.outbox[i])
      ensures EventRow(c, w.db.outbox[i]).Some?
      ensures exists tx :: tx in txs && IsReport(c, tx, EventRow(c, w.db.outbox[i]).value)
    {
      assert Tells(c, txs, w.db.outbox[i]);
      var tx :| tx in txs && w.db.outbox[i].payload == StatusPayload(c, tx, EffectiveStatus(tx.status));
      ReportRow(c, w.db.outbox[i], tx);
    }
    RunOfPipeline(c, w, steps);
    DrainedMeansStored(c, w, steps);
  }

  // ---------------------------------------------------------------- one pass and its delivery

  /** A pass at `now` on what the lookup answered, and the steps of relay and consumer after it. */
  datatype Round = Round(now: int, chStatus: map<string, Json>, steps: seq<WStep>)

  /** What a repair starts from: known statuses, unique and non-empty ids, and nothing under way. */
  ghost predicate Quiescent(w: World) {
    && UniqueIds(w.db.txs) && KnownStatuses(w.db.txs) && (forall tx :: tx in w.db.txs ==> tx.id != "")
    && (forall e :: e in w.db.outbox ==> !e.status.Pending?)
    && Drained(w.k)
  }

  /** Every event the pass queued was sent, and the consumer has delivered everything. */
  ghost predicate Completed(before: World, after: World) {
    && |after.db.outbox| == |before.db.outbox|
    && (forall i :: 0 <= i < |before.db.outbox| && before.db.outbox[i].status.Pending? ==>
        after.db.outbox[i].status.Processed?)
    && Drained(after.k)
  }

  function Queued(c: Codec, w: World, r: Round): World {
    World(SyncPass(c, w.db, r.now, r.chStatus), w.k)
  }

  /** A whole round: nothing is under way, what is in the window is terminal once what is old enough is settled, the
      lookup answered for the rows there are, and the events of the pass were sent and delivered, whatever failed and
      started again on the way. */
  ghost predicate PassRun(c: Codec, w: World, r: Round) {
    var txs := SettledTxs(w.db.txs, r.now);
    var w1 := Queued(c, w, r);
    && Quiescent(w) && StatusesOf(w.k.rows, Ids(Windowed(txs, r.now)), r.chStatus)
    && (forall tx :: tx in txs && tx.createdAt >= r.now - WINDOW ==> tx.status in TERMINAL)
    && Possible(c, w1, r.steps) && RelayOrConsume(r.steps) && Completed(w1, After(c, w1, r.steps))
  }

  function AfterRound(c: Codec, w: World, r: Round): World
    requires Possible(c, Queued(c, w, r), r.steps)
  {
    After(c, Queued(c, w, r), r.steps)
  }

  /** What is not in the window is old enough to be settled. */
  lemma AllTerminal(txs: seq<Tx>, now: int)
    requires KnownStatuses(txs)
    requires forall tx :: tx in SettledTxs(txs, now) && tx.createdAt >= now - WINDOW ==> tx.status in TERMINAL
    ensures forall tx :: tx in SettledTxs(txs, now) ==> tx.status in TERMINAL
    ensures forall tx, t :: tx in SettledTxs(txs, now) ==> !Due(tx, t)
  {
    forall tx | tx in SettledTxs(txs, now)
      ensures tx.status in TERMINAL
    {
      var i :| 0 <= i < |txs| && SettledTxs(txs, now)[i] == tx;
      assert tx == SettleOne(txs[i], now);
    }
  }

  lemma QueuedTells(c: Codec, w: World, r: Round)
    requires Quiescent(w)
    ensures var w1 := Queued(c, w, r);
      forall i :: 0 <= i < |w1.db.outbox| && w1.db.outbox[i].status.Pending? ==>
        Tells(c, SettledTxs(w.db.txs, r.now), w1.db.outbox[i])
  {
    var w1 := Queued(c, w, r);
    forall i | 0 <= i < |w1.db.outbox| && w1.db.outbox[i].status.Pending?
      ensures Tells(c, SettledTxs(w.db.txs, r.now), w1.db.outbox[i])
    {
      if i >= |w.db.outbox| {
        PassTells(c, w.db, r.now, r.chStatus, i);
      }
    }
  }

  /** A round settles what is due and otherwise leaves the transactions; ClickHouse gains reports and nothing else. */
  lemma RoundGains(c: Codec, w: World, r: Round)
    requires Lawful(c) && TimesParse(c) && PassRun(c, w, r)
    ensures var txs := SettledTxs(w.db.txs, r.now);
      var w2 := AfterRound(c, w, r);
      && w2.db.txs == txs && (forall tx :: tx in txs ==> tx.status in TERMINAL) && UniqueIds(txs)
      && w.k.rows <= w2.k.rows && GainedTell(c, w.k.rows, w2.k.rows, txs)
  {
    var txs := SettledTxs(w.db.txs, r.now);
    AllTerminal(w.db.txs, r.now);
    TerminalRunKeepsTxs(c, Queued(c, w, r), r.steps);
    QueuedTells(c, w, r);
    CatchUpGains(c, Queued(c, w, r), txs, r.steps);
  }

  /** A windowed transaction that is missing or differs has a report afterwards. */
  lemma RoundReports(c: Codec, w: World, r: Round, tx: Tx) returns (report: Row)
    requires Lawful(c) && TimesParse(c) && PassRun(c, w, r)
    requires tx in SettledTxs(w.db.txs, r.now) && tx.createdAt >= r.now - WINDOW && Repair(tx, r.chStatus).Some?
    ensures report in AfterRound(c, w, r).k.rows && IsReport(c, tx, report)
  {
    AllTerminal(w.db.txs, r.now);
    QueuedTells(c, w, r);
    CatchUpGains(c, Queued(c, w, r), SettledTxs(w.db.txs, r.now), r.steps);
    var i := RepairIsQueued(c, w.db, r.now, r.chStatus, tx);
    var e := Queued(c, w, r).db.outbox[i];
    ReportRow(c, e, tx);
    report := EventRow(c, e).value;
  }

  // ---------------------------------------------------------------- the fixpoint

  lemma NewestStillAgrees(c: Codec, had: seq<Row>, rows: seq<Row>, txs: seq<Tx>, tx: Tx)
    requires had <= rows && GainedTell(c, had, rows, txs) && UniqueIds(txs)
    requires tx in txs && MissingOrAgreeing(had, tx)
    ensures MissingOrAgreeing(rows, tx)
  {
    forall r | Newest(rows, tx.id, r)
      ensures r.status == Str(EffectiveStatus(tx.status))
    {
      if r in had {
        assert forall q :: q in had ==> q in rows;
        assert Newest(had, tx.id, r);
      } else {
        GainedAbout(c, had, rows, txs, tx, r);
      }
    }
  }

  lemma LookedUp(rows: seq<Row>, txs: seq<Tx>, now: int, chStatus: map<string, Json>, tx: Tx)
    requires StatusesOf(rows, Ids(Windowed(txs, now)), chStatus) && tx in txs && tx.createdAt >= now - WINDOW
    ensures tx.id in chStatus <==> HasRow(rows, tx.id)
    ensures tx.id in chStatus ==> HasStatus(rows, tx.id, chStatus[tx.id])
  {
    WindowedMembers(txs, now);
    var window := Windowed(txs, now);
    var i :| 0 <= i < |window| && window[i] == tx;
    assert Ids(window)[i] == tx.id;
    assert tx.id in Ids(window);
  }

  /** Whatever ClickHouse held, a windowed transaction has a row afterwards, and agrees if it agreed or was missing. */
  lemma WindowedArrives(c: Codec, w: World, r: Round, tx: Tx)
    requires Lawful(c) && TimesParse(c) && PassRun(c, w, r)
    requires tx in SettledTxs(w.db.txs, r.now) && tx.createdAt >= r.now - WINDOW
    ensures HasRow(AfterRound(c, w, r).k.rows, tx.id)
    ensures MissingOrAgreeing(w.k.rows, tx) ==> MissingOrAgreeing(AfterRound(c, w, r).k.rows, tx)
  {
    RoundGains(c, w, r);
    LookedUp(w.k.rows, SettledTxs(w.db.txs, r.now), r.now, r.chStatus, tx);
    if tx.id !in r.chStatus {
      var report := RoundReports(c, w, r, tx);
    } else {
      var q :| q in w.k.rows && About(q, tx.id);
      assert q in AfterRound(c, w, r).k.rows;
    }
    if MissingOrAgreeing(w.k.rows, tx) {
      NewestStillAgrees(c, w.k.rows, AfterRound(c, w, r).k.rows, SettledTxs(w.db.txs, r.now), tx);
    }
  }

  /** The repair fixpoint.  Start with nothing under way and, once what is old enough is settled, every
      transaction of the window terminal and either missing from ClickHouse or agreeing with it.  After one
      pass, and any run of the relay and the consumer that sends the queued events and delivers them, whatever
      fails and restarts on the way, the next pass queues nothing. */
  lemma RepairFixpoint(c: Codec, w: World, r: Round, later: int, laterStatus: map<string, Json>)
    requires Lawful(c) && TimesParse(c) && PassRun(c, w, r) && r.now <= later
    requires forall tx :: tx in SettledTxs(w.db.txs, r.now) && tx.createdAt >= r.now - WINDOW ==>
      MissingOrAgreeing(w.k.rows, tx)
    requires var w2 := AfterRound(c, w, r);
      StatusesOf(w2.k.rows, Ids(Windowed(SettledTxs(w2.db.txs, later), later)), laterStatus)
    ensures var w2 := AfterRound(c, w, r);
      SyncPass(c, w2.db, later, laterStatus).outbox == w2.db.outbox
  {
    var txs := SettledTxs(w.db.txs, r.now);
    var w2 := AfterRound(c, w, r);
    AllTerminal(w.db.txs, r.now);
    RoundGains(c, w, r);
    NothingDue(c, txs, later);
    forall tx | tx in txs && tx.createdAt >= later - WINDOW
      ensures tx.id in laterStatus && laterStatus[tx.id] == Str(EffectiveStatus(tx.status))
    {
      WindowedArrives(c, w, r, tx);
      LookedUp(w2.k.rows, txs, later, laterStatus, tx);
    }
    NothingQueued(c, w2.db, later, laterStatus);
  }

  // ---------------------------------------------------------------- differing statuses

  /** The time a report of the transaction carries. */
  function ReportTime(c: Codec, tx: Tx): int
    requires c.time(Str(c.iso(tx.createdAt))).Some?
  {
    c.time(Str(c.iso(tx.createdAt))).value
  }

  /** A difference the pass sees is repaired exactly when the report is newer than what is there: the report carries
      the creation time, so a row at that time or later with another status stays among the newest. */
  lemma DifferenceRepairedExactlyWhenNewer(c: Codec, w: World, r: Round, tx: Tx, newest: Row)
    requires Lawful(c) && TimesParse(c) && PassRun(c, w, r)
    requires tx in SettledTxs(w.db.txs, r.now) && tx.createdAt >= r.now - WINDOW
    requires tx.id in r.chStatus && r.chStatus[tx.id] != Str(EffectiveStatus(tx.status))
    requires Newest(w.k.rows, tx.id, newest)
    ensures MissingOrAgreeing(AfterRound(c, w, r).k.rows, tx) <==> newest.eventTime < ReportTime(c, tx)
  {
    var txs := SettledTxs(w.db.txs, r.now);
    var rows := AfterRound(c, w, r).k.rows;
    RoundGains(c, w, r);
    var report := RoundReports(c, w, r, tx);
    LookedUp(w.k.rows, txs, r.now, r.chStatus, tx);
    if newest.eventTime < ReportTime(c, tx) {
      ReportWins(c, w.k.rows, rows, txs, tx, newest, report);
    } else {
      var differing :| Newest(w.k.rows, tx.id, differing) && differing.status == r.chStatus[tx.id];
      NewestStays(c, w.k.rows, rows, txs, tx, differing);
    }
  }

  lemma ReportWins(c: Codec, had: seq<Row>, rows: seq<Row>, txs: seq<Tx>, tx: Tx, newest: Row, report: Row)
    requires GainedTell(c, had, rows, txs) && UniqueIds(txs) && tx in txs
    requires Newest(had, tx.id, newest) && report in rows && IsReport(c, tx, report)
    requires newest.eventTime < report.eventTime
    ensures MissingOrAgreeing(rows, tx)
  {
    forall q | Newest(rows, tx.id, q)
      ensures q.status == Str(EffectiveStatus(tx.status))
    {
      if q !in had {
        GainedAbout(c, had, rows, txs, tx, q);
      }
    }
  }

  /** A newest row no older than the report stays a newest row. */
  lemma NewestStays(c: Codec, had: seq<Row>, rows: seq<Row>, txs: seq<Tx>, tx: Tx, newest: Row)
    requires TimesParse(c) && had <= rows && GainedTell(c, had, rows, txs) && UniqueIds(txs) && tx in txs
    requires Newest(had, tx.id, newest) && newest.eventTime >= ReportTime(c, tx)
    ensures Newest(rows, tx.id, newest)
  {
    forall q | q in rows && About(q, tx.id)
      ensures q.eventTime <= newest.eventTime
    {
      if q !in had {
        GainedAbout(c, had, rows, txs, tx, q);
      }
    }
  }

  // ---------------------------------------------------------------- differences that never go away

  /** ClickHouse has rows of the transaction, and no newest one has its status. */
  ghost predicate Differs(rows: seq<Row>, tx: Tx) {
    HasRow(rows, tx.id) && forall r :: Newest(rows, tx.id, r) ==> r.status != Str(EffectiveStatus(tx.status))
  }

  ghost predicate Rounds(c: Codec, w: World, rounds: seq<Round>)
    decreases |rounds|
  {
    rounds == [] || (PassRun(c, w, rounds[0]) && Rounds(c, AfterRound(c, w, rounds[0]), rounds[1..]))
  }

  function AfterRounds(c: Codec, w: World, rounds: seq<Round>): World
    requires Rounds(c, w, rounds)
    decreases |rounds|
  {
    if rounds == [] then w else AfterRounds(c, AfterRound(c, w, rounds[0]), rounds[1..])
  }

  /** A round leaves nothing under way, so another one can follow. */
  lemma RoundKeepsQuiescent(c: Codec, w: World, r: Round)
    requires Lawful(c) && TimesParse(c) && PassRun(c, w, r)
    ensures Quiescent(AfterRound(c, w, r))
  {
    var txs := SettledTxs(w.db.txs, r.now);
    RoundGains(c, w, r);
    CatchingUpKeepsEvents(c, Queued(c, w, r), r.steps);
    forall tx | tx in txs
      ensures tx.id != ""
    {
      var i :| 0 <= i < |txs| && txs[i] == tx;
      assert w.db.txs[i] in w.db.txs;
    }
  }

  lemma {:induction false} SamePayloadsSameCount(xs: seq<OutboxEvent>, ys: seq<OutboxEvent>, id: string)
    requires |xs| == |ys| && forall i :: 0 <= i < |xs| ==> xs[i].payload == ys[i].payload
    ensures CountFor(xs, id) == CountFor(ys, id)
  {
    if xs != [] {
      SamePayloadsSameCount(xs[..|xs| - 1], ys[..|ys| - 1], id);
    }
  }

  lemma TerminalStays(txs: seq<Tx>, now: int, tx: Tx)
    requires tx in txs && tx.status in TERMINAL
    ensures tx in SettledTxs(txs, now) && (UniqueIds(txs) ==> !HasDue(txs, now, tx.id))
  {
    var i :| 0 <= i < |txs| && txs[i] == tx;
    assert SettledTxs(txs, now)[i] == tx;
  }

  /** The events a pass queues about one transaction that needs a repair: exactly one. */
  lemma QueuedOnce(c: Codec, w: World, r: Round, tx: Tx)
    requires Quiescent(w) && tx in w.db.txs && tx.status in TERMINAL && tx.createdAt >= r.now - WINDOW
    requires Repair(tx, r.chStatus).Some?
    ensures CountFor(Queued(c, w, r).db.outbox, tx.id) == CountFor(w.db.outbox, tx.id) + 1
  {
    var txs := SettledTxs(w.db.txs, r.now);
    var window := Windowed(txs, r.now);
    var settle, sync := SettleEvents(c, w.db.txs, r.now), SyncEvents(c, window, r.chStatus);
    TerminalStays(w.db.txs, r.now, tx);
    WindowedMembers(txs, r.now);
    SettleEventsCount(c, w.db.txs, r.now, tx.id);
    SyncEventsCount(c, window, r.chStatus, tx.id);
    assert NeedsRepair(window, r.chStatus, tx.id);
    CountForConcat(w.db.outbox, settle, tx.id);
    CountForConcat(w.db.outbox + settle, sync, tx.id);
  }

  /** One round over a difference whose newest row is newer than the report: the same rows stay newest, and the
      transaction is queued again. */
  lemma DifferenceSurvives(c: Codec, w: World, r: Round, tx: Tx, newest: Row)
    requires Lawful(c) && TimesParse(c) && PassRun(c, w, r)
    requires tx in w.db.txs && tx.status in TERMINAL && tx.createdAt >= r.now - WINDOW
    requires Differs(w.k.rows, tx) && Newest(w.k.rows, tx.id, newest) && newest.eventTime > ReportTime(c, tx)
    ensures var w2 := AfterRound(c, w, r);
      && tx in w2.db.txs && Differs(w2.k.rows, tx) && Newest(w2.k.rows, tx.id, newest)
      && CountFor(w2.db.outbox, tx.id) == CountFor(w.db.outbox, tx.id) + 1
  {
    var txs := SettledTxs(w.db.txs, r.now);
    var rows := AfterRound(c, w, r).k.rows;
    TerminalStays(w.db.txs, r.now, tx);
    RoundGains(c, w, r);
    NewestStays(c, w.k.rows, rows, txs, tx, newest);
    NewerStillDiffers(c, w.k.rows, rows, txs, tx, newest);
    LookedUp(w.k.rows, txs, r.now, r.chStatus, tx);
    QueuedOnce(c, w, r, tx);
    CatchingUpKeepsEvents(c, Queued(c, w, r), r.steps);
    SamePayloadsSameCount(Queued(c, w, r).db.outbox, AfterRound(c, w, r).db.outbox, tx.id);
  }

  lemma NewerStillDiffers(c: Codec, had: seq<Row>, rows: seq<Row>, txs: seq<Tx>, tx: Tx, newest: Row)
    requires TimesParse(c) && had <= rows && GainedTell(c, had, rows, txs) && UniqueIds(txs) && tx in txs
    requires Differs(had, tx) && Newest(had, tx.id, newest) && newest.eventTime > ReportTime(c, tx)
    ensures Differs(rows, tx)
  {
    assert newest in rows;
    forall q | Newest(rows, tx.id, q)
      ensures q.status != Str(EffectiveStatus(tx.status))
    {
      if q in had {
        assert Newest(had, tx.id, q) by {
          assert forall x :: x in had ==> x in rows;
        }
      } else {
        GainedAbout(c, had, rows, txs, tx, q);
      }
    }
  }

  /** Such a difference is never repaired: after any number of passes it is still there, and every pass has queued the
      transaction once more. */
  lemma {:induction false} NeverRepaired(c: Codec, w: World, rounds: seq<Round>, tx: Tx, newest: Row)
    requires Lawful(c) && TimesParse(c) && Rounds(c, w, rounds)
    requires tx in w.db.txs && tx.status in TERMINAL && forall r :: r in rounds ==> tx.createdAt >= r.now - WINDOW
    requires Differs(w.k.rows, tx) && Newest(w.k.rows, tx.id, newest) && newest.eventTime > ReportTime(c, tx)
    ensures var w' := AfterRounds(c, w, rounds);
      && Differs(w'.k.rows, tx) && CountFor(w'.db.outbox, tx.id) == CountFor(w.db.outbox, tx.id) + |rounds|
    decreases |rounds|
  {
    if rounds != [] {
      assert rounds[0] in rounds;
      DifferenceSurvives(c, w, rounds[0], tx, newest);
      NeverRepaired(c, AfterRound(c, w, rounds[0]), rounds[1..], tx, newest);
    }
  }

  /** A table with one transaction, and ClickHouse with one row about it, pending and a second newer than its report. */
  function LoneRow(c: Codec, tx: Tx): Row
    requires TimesParse(c)
  {
    TxRow(Str(tx.id), Null, Null, Null, Null, Null, Null, Null, Null, Null,
          ReportTime(c, tx) + 1, Null, Null, Null, Str("pending"))
  }

  function LoneWorld(c: Codec, tx: Tx): World
    requires TimesParse(c)
  {
    World(Db([tx], []), State(map[], map[], map[], [], [], [], [LoneRow(c, tx)], 0))
  }

  lemma LoneWorldDiffers(c: Codec, tx: Tx, chStatus: map<string, Json>)
    requires TimesParse(c) && tx.id != "" && tx.status == "cleared" && chStatus == map[tx.id := Str("pending")]
    ensures var w := LoneWorld(c, tx);
      && Quiescent(w) && Differs(w.k.rows, tx) && Newest(w.k.rows, tx.id, LoneRow(c, tx))
      && SettledTxs(w.db.txs, tx.createdAt) == [tx]
      && StatusesOf(w.k.rows, Ids(Windowed([tx], tx.createdAt)), chStatus)
  {
    var rows := LoneWorld(c, tx).k.rows;
    assert About(LoneRow(c, tx), tx.id) && Newest(rows, tx.id, LoneRow(c, tx));
    assert tx.status !in SETTLEABLE && SettledTxs([tx], tx.createdAt) == [tx];
    assert [tx][..0] == [] && Windowed([tx], tx.createdAt) == [tx] && Ids([tx]) == [tx.id];
  }

  /** There are such worlds, for any cleared transaction. */
  lemma SurvivingDifference(c: Codec, tx: Tx) returns (w: World, r: Round)
    requires Lawful(c) && TimesParse(c) && tx.id != "" && tx.status == "cleared"
    ensures tx in w.db.txs && Differs(w.k.rows, tx) && PassRun(c, w, r)
    ensures Differs(AfterRound(c, w, r).k.rows, tx)
  {
    w := LoneWorld(c, tx);
    var chStatus := map[tx.id := Str("pending")];
    LoneWorldDiffers(c, tx, chStatus);
    r := Round(tx.createdAt, chStatus, []);
    var w1 := Queued(c, w, r);
    QueuedTells(c, w, r);
    forall i: nat | i < |w1.db.outbox| && Active(w1.db.outbox, i)
      ensures EventRow(c, w1.db.outbox[i]).Some?
    {
      assert Tells(c, [tx], w1.db.outbox[i]);
      ReportRow(c, w1.db.outbox[i], tx);
    }
    var steps := CanCatchUp(c, w1);
    r := r.(steps := steps);
    DifferenceSurvives(c, w, r, tx, LoneRow(c, tx));
  }
}
