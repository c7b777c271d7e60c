/**
 The two Postgres tables of the event pipeline as the workers update them in place: the relay
 (backend/outbox_service.py, backend/outbox_worker.py) and the sync checker (backend/sync_checker.py).
 */
module EventStore {
  import opened Wrappers
  import opened Payloads
  import opened Consumer
  import opened Outbox
  import opened SyncChecker

  class Store {
    const codec: Codec
    var txs: seq<Tx>
    var outbox: seq<OutboxEvent>

    ghost function View(): Db
      reads this
    {
      Db(txs, outbox)
    }

    constructor (codec: Codec, txs: seq<Tx>, outbox: seq<OutboxEvent>)
      ensures this.codec == codec && View() == Db(txs, outbox)
    {
      this.codec, this.txs, this.outbox := codec, txs, outbox;
    }

    /** One row of the settlement loop. */
    method SettleRow(i: nat, now: int)
      requires i < |txs|
      modifies this
      ensures txs == old(txs)[i := SettleOne(old(txs)[i], now)]
      ensures outbox == old(outbox) +
        if Due(old(txs)[i], now)
        then [OutboxEvent("transaction.status_update", StatusPayload(codec, old(txs)[i], "cleared"), Pending)] else []
    {
      var tx := txs[i];
      if tx.status in SETTLEABLE && tx.createdAt <= now - SETTLE_AGE {
        txs := txs[i := tx.(status := "cleared")];
        var payload := StatusPayload(codec, tx, "cleared");
        outbox := outbox + [OutboxEvent("transaction.status_update", payload, Pending)];
      }
    }

    method AutoSettle(now: int)
      modifies this
      ensures View() == Settle(codec, old(View()), now)
    {
      ghost var before := txs;
      var i := 0;
      while i < |txs|
        invariant 0 <= i <= |txs| == |before|
        invariant forall j :: 0 <= j < i ==> txs[j] == SettleOne(before[j], now)
        invariant forall j :: i <= j < |txs| ==> txs[j] == before[j]
        invariant outbox == old(outbox) + SettleEvents(codec, before[..i], now)
      {
        SettleEventsStep(codec, before, i, now);
        SettleRow(i, now);
        i := i + 1;
      }
      assert before[..i] == before;
      assert txs == SettledTxs(before, now);
    }

    /** The comparison loop of a pass and the queueing of what it found. */
    method QueueRepairs(pgTxs: seq<Tx>, statuses: map<string, Json>)
      modifies this`outbox
      ensures outbox == old(outbox) + SyncEvents(codec, pgTxs, statuses)
    {
      var i := 0;
      while i < |pgTxs|
        invariant 0 <= i <= |pgTxs|
        invariant outbox == old(outbox) + SyncEvents(codec, pgTxs[..i], statuses)
      {
        var tx := pgTxs[i];
        SyncEventsStep(codec, pgTxs, i, statuses);
        var effective := EffectiveStatus(tx.status);
        if tx.id !in statuses {
          outbox := outbox + [OutboxEvent("transaction.created", StatusPayload(codec, tx, effective), Pending)];
        } else if Str(effective) != statuses[tx.id] {
          outbox := outbox + [OutboxEvent("transaction.status_update", StatusPayload(codec, tx, effective), Pending)];
        }
        i := i + 1;
      }
      assert pgTxs[..i] == pgTxs;
    }

    /** One pass over the last week.  `answers` are ClickHouse's replies to the chunked lookup, None if a query
        failed; a failed pass keeps what was settled and queues nothing. */
    method RunSyncCheck(now: int, ghost rows: seq<Row>, answers: Option<seq<seq<Row>>>)
      returns (ghost chStatus: map<string, Json>)
      requires UniqueIds(txs)
      requires answers.Some? ==>
        var ids := Ids(Windowed(SettledTxs(txs, now), now));
        |answers.value| * CHUNK >= |ids| &&
        forall k :: 0 <= k < |answers.value| ==> IsAnswer(rows, Slice(ids, k), answers.value[k])
      modifies this
      ensures answers.None? ==> View() == Settle(codec, old(View()), now)
      ensures answers.Some? ==>
        && StatusesOf(rows, Ids(Windowed(SettledTxs(old(txs), now), now)), chStatus)
        && View() == SyncPass(codec, old(View()), now, chStatus)
    {
      AutoSettle(now);
      var pgTxs := Windowed(txs, now);
      var pgIds := Ids(pgTxs);
      chStatus := map[];
      if answers.None? {
        return;
      }
      WindowedMembers(txs, now);
      var statuses := LookupStatuses(rows, pgIds, answers.value);
      chStatus := statuses;
      QueueRepairs(pgTxs, statuses);
    }

    method MarkTxProcessing(txId: Option<string>)
      modifies this`txs
      ensures txs == MarkProcessing(old(txs), txId)
    {
      ghost var before := txs;
      var j := 0;
      while j < |txs|
        invariant 0 <= j <= |txs| == |before|
        invariant forall k :: 0 <= k < j ==> txs[k] == MarkProcessing(before, txId)[k]
        invariant forall k :: j <= k < |txs| ==> txs[k] == before[k]
      {
        if txId == Some(txs[j].id) && txs[j].status !in TERMINAL {
          txs := txs[j := txs[j].(status := "processing")];
        }
        j := j + 1;
      }
      assert txs == MarkProcessing(before, txId);
    }

    /** The message that reached Kafka, if one did. */
    method SendToKafka(i: nat, o: SendOutcome) returns (m: Option<Message>)
      requires i < |outbox|
      modifies this
      ensures View() == SendEvent(old(View()), i, o)
      ensures m == if Lands(o) then Some(Sealing(codec, old(outbox)[i])) else None
    {
      var e := outbox[i];
      var encrypted := EncryptPayload(codec, e.payload);
      m := if Lands(o) then Some(Value(Obj(encrypted))) else None;
      match o {
        case Sent =>
          outbox := outbox[i := e.(status := Processed)];
          MarkTxProcessing(PayloadTx(e.payload));
        case SendFailed(_) =>
          outbox := outbox[i := e.(status := FailedEvent)];
        case CrashedAfterSend =>
      }
    }

    /** One round of the outbox worker: at most 50 pending events, each sent on its own. */
    method ProcessBatch(picked: seq<nat>, outcomes: seq<SendOutcome>) returns (sent: seq<Message>)
      requires |picked| <= BATCH_LIMIT && |outcomes| == |picked|
      requires forall k :: 0 <= k < |picked| ==> picked[k] < |outbox|
      modifies this
      ensures View() == SendBatch(old(View()), picked, outcomes)
      ensures sent == BatchMessages(codec, old(View()), picked, outcomes)
    {
      sent := [];
      var k := 0;
      while k < |picked|
        invariant 0 <= k <= |picked|
        invariant View() == SendBatch(old(View()), picked[..k], outcomes[..k])
        invariant sent == BatchMessages(codec, old(View()), picked[..k], outcomes[..k])
      {
        NextInBatch(codec, old(View()), picked, outcomes, k);
        var m := SendToKafka(picked[k], outcomes[k]);
        if m.Some? {
          sent := sent + [m.value];
        }
        k := k + 1;
      }
      assert picked[..k] == picked && outcomes[..k] == outcomes;
    }
  }
}
