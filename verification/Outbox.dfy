/**
 The Postgres side of the event pipeline: transactions, outbox events, and the relay that sends an
 event to Kafka (backend/outbox_service.py, backend/outbox_worker.py).
 */
module Outbox {
  import opened Wrappers
  import opened Payloads
  import opened Consumer

  datatype Tx = Tx(
    id: string, parentId: Option<string>, accountId: int, amount: int, category: string, merchant: string,
    transactionType: string, transactionSide: string, status: string, createdAt: int)

  datatype EventStatus = Pending | Processed | FailedEvent

  datatype OutboxEvent = OutboxEvent(eventType: string, payload: map<string, Json>, status: EventStatus)

  datatype Db = Db(txs: seq<Tx>, outbox: seq<OutboxEvent>)

  const TERMINAL := {"cleared", "settled", "failed", "cancelled"}
  const BATCH_LIMIT := 50

  /** Transaction ids are the table's primary key. */
  ghost predicate UniqueIds(txs: seq<Tx>) {
    forall i, j :: 0 <= i < j < |txs| ==> txs[i].id != txs[j].id
  }

  function TargetTopic(eventType: string): Topic {
    if eventType == "activity_event" then Activity else Transactions
  }

  /** The message an event becomes. */
  function Sealing(c: Codec, e: OutboxEvent): Message {
    Value(Obj(Encrypt(c, e.payload)))
  }

  /** `payload.get("transaction_id")`, where it is a usable id. */
  function PayloadTx(payload: map<string, Json>): Option<string> {
    match Get(payload, "transaction_id")
    case Str(id) => if id == "" then None else Some(id)
    case _ => None
  }

  function MarkProcessing(txs: seq<Tx>, id: Option<string>): (r: seq<Tx>)
    ensures |r| == |txs|
    ensures forall i :: 0 <= i < |txs| ==>
      r[i] == if id == Some(txs[i].id) && txs[i].status !in TERMINAL then txs[i].(status := "processing") else txs[i]
  {
    seq(|txs|, i requires 0 <= i < |txs| =>
      if id == Some(txs[i].id) && txs[i].status !in TERMINAL then txs[i].(status := "processing") else txs[i])
  }

  /** How sending one event ends.  An error or a timeout marks the event failed, although the broker may
      have taken the message; a crash after the send leaves the event pending. */
  datatype SendOutcome = Sent | SendFailed(landed: bool) | CrashedAfterSend

  predicate Lands(o: SendOutcome) {
    o.Sent? || o.CrashedAfterSend? || (o.SendFailed? && o.landed)
  }

  /** What `send_to_kafka` (with `_fail_event`) leaves in Postgres. */
  function SendEvent(db: Db, i: nat, o: SendOutcome): Db
    requires i < |db.outbox|
  {
    var e := db.outbox[i];
    match o
    case Sent => Db(MarkProcessing(db.txs, PayloadTx(e.payload)), db.outbox[i := e.(status := Processed)])
    case SendFailed(_) => db.(outbox := db.outbox[i := e.(status := FailedEvent)])
    case CrashedAfterSend => db
  }

  /** A batch of events sent one after the other. */
  function SendBatch(db: Db, picked: seq<nat>, outcomes: seq<SendOutcome>): (r: Db)
    requires |outcomes| == |picked| && forall k :: 0 <= k < |picked| ==> picked[k] < |db.outbox|
    ensures |r.outbox| == |db.outbox|
    ensures forall i :: 0 <= i < |db.outbox| ==>
        r.outbox[i].payload == db.outbox[i].payload && r.outbox[i].eventType == db.outbox[i].eventType
  {
    if picked == [] then db
    else
      var n := |picked| - 1;
      SendEvent(SendBatch(db, picked[..n], outcomes[..n]), picked[n], outcomes[n])
  }

  /** The messages of a batch that reached Kafka, in order. */
  function BatchMessages(c: Codec, db: Db, picked: seq<nat>, outcomes: seq<SendOutcome>): seq<Message>
    requires |outcomes| == |picked| && forall k :: 0 <= k < |picked| ==> picked[k] < |db.outbox|
  {
    if picked == [] then []
    else
      var n := |picked| - 1;
      BatchMessages(c, db, picked[..n], outcomes[..n]) + if Lands(outcomes[n])
          then [Sealing(c, db.outbox[picked[n]])] else []
  }

  function PendingCount(events: seq<OutboxEvent>): nat {
    if events == [] then 0
    else PendingCount(events[..|events| - 1]) + (if events[|events| - 1].status.Pending? then 1 else 0)
  }

  /** The number of events about one transaction. */
  function CountFor(events: seq<OutboxEvent>, id: string): nat {
    if events == [] then 0
    else CountFor(events[..|events| - 1], id) + (if PayloadTx(events[|events| - 1].payload) == Some(id) then 1 else 0)
  }

  lemma {:induction false} PendingAfterUpdate(events: seq<OutboxEvent>, i: nat, st: EventStatus)
    requires i < |events| && events[i].status.Pending? && !st.Pending?
    ensures PendingCount(events[i := events[i].(status := st)]) == PendingCount(events) - 1
  {
    var n := |events| - 1;
    var u := events[i := events[i].(status := st)];
    if i == n {
      assert u[..n] == events[..n];
    } else {
      assert u[..n] == events[..n][i := events[i].(status := st)];
      PendingAfterUpdate(events[..n], i, st);
    }
  }

  /** Sending a pending event takes exactly that event off the queue, unless the process dies first. */
  lemma SendTakesOneOffTheQueue(db: Db, i: nat, o: SendOutcome)
    requires i < |db.outbox| && db.outbox[i].status.Pending?
    ensures PendingCount(SendEvent(db, i, o).outbox) ==
            PendingCount(db.outbox) - (if o.CrashedAfterSend? then 0 else 1)
    ensures forall j :: 0 <= j < |db.outbox| && j != i ==> SendEvent(db, i, o).outbox[j] == db.outbox[j]
  {
    if !o.CrashedAfterSend? {
      PendingAfterUpdate(db.outbox, i, Ended(o));
    }
  }

  /** What a send leaves behind.  A completed one marks the event processed and its transaction, unless that is cleared,
      settled, failed or cancelled, as processing; a failed one marks the event failed; a crash leaves everything. */
  lemma SendExactly(db: Db, i: nat, o: SendOutcome)
    requires i < |db.outbox|
    ensures var d := SendEvent(db, i, o);
      && |d.outbox| == |db.outbox| && |d.txs| == |db.txs|
      && d.outbox[i].status == (match o
           case Sent => Processed case SendFailed(_) => FailedEvent case CrashedAfterSend => db.outbox[i].status)
      && d.outbox[i].payload == db.outbox[i].payload && d.outbox[i].eventType == db.outbox[i].eventType
      && (!o.Sent? ==> d.txs == db.txs)
      && forall j :: 0 <= j < |db.txs| && o.Sent? ==>
           d.txs[j] ==
             if && db.txs[j].id != "" && Get(db.outbox[i].payload, "transaction_id") == Str(db.txs[j].id)
                && db.txs[j].status !in {"cleared", "settled", "failed", "cancelled"}
             then db.txs[j].(status := "processing") else db.txs[j]
  {
  }

  function Ended(o: SendOutcome): EventStatus {
    if o.Sent? then Processed else FailedEvent
  }

  /** The outbox of a batch: each event has the status its send ended with. */
  ghost predicate Resolved(before: seq<OutboxEvent>, after: seq<OutboxEvent>, picked: seq<nat>,
      outcomes: seq<SendOutcome>)
    requires |outcomes| == |picked| && |after| == |before| && forall k :: 0 <= k < |picked| ==> picked[k] < |before|
  {
    && (forall i :: 0 <= i < |after| && i !in picked ==> after[i] == before[i])
    && (forall k :: 0 <= k < |picked| ==> after[picked[k]] == before[picked[k]].(status := Ended(outcomes[k])))
  }

  lemma OneMoreResolved(before: seq<OutboxEvent>, after: seq<OutboxEvent>, picked: seq<nat>,
      outcomes: seq<SendOutcome>, i: nat, o: SendOutcome)
    requires |outcomes| == |picked| && |after| == |before| && forall k :: 0 <= k < |picked| ==> picked[k] < |before|
    requires Resolved(before, after, picked, outcomes) && i < |before| && i !in picked
    ensures Resolved(before, after[i := after[i].(status := Ended(o))], picked + [i], outcomes + [o])
  {
    assert forall k :: 0 <= k < |picked| ==> picked[k] in picked;
  }

  lemma NextInBatch(c: Codec, db: Db, picked: seq<nat>, outcomes: seq<SendOutcome>, k: nat)
    requires |outcomes| == |picked| && k < |picked| && forall j :: 0 <= j < |picked| ==> picked[j] < |db.outbox|
    ensures SendBatch(db, picked[..k + 1], outcomes[..k + 1]) ==
      SendEvent(SendBatch(db, picked[..k], outcomes[..k]), picked[k], outcomes[k])
    ensures BatchMessages(c, db, picked[..k + 1], outcomes[..k + 1]) ==
      BatchMessages(c, db, picked[..k], outcomes[..k]) + if Lands(outcomes[k])
          then [Sealing(c, db.outbox[picked[k]])] else []
  {
    assert picked[..k + 1][..k] == picked[..k] && outcomes[..k + 1][..k] == outcomes[..k];
  }

  lemma SentOutbox(db: Db, i: nat, o: SendOutcome)
    requires i < |db.outbox| && !o.CrashedAfterSend?
    ensures SendEvent(db, i, o).outbox == db.outbox[i := db.outbox[i].(status := Ended(o))]
  {
  }

  lemma OneMoreSent(db: Db, d: Db, picked: seq<nat>, outcomes: seq<SendOutcome>, i: nat, o: SendOutcome)
    requires |outcomes| == |picked| && |d.outbox| == |db.outbox|
    requires forall k :: 0 <= k < |picked| ==> picked[k] < |db.outbox|
    requires Resolved(db.outbox, d.outbox, picked, outcomes)
    requires PendingCount(d.outbox) == PendingCount(db.outbox) - |picked|
    requires i < |db.outbox| && i !in picked && db.outbox[i].status.Pending? && !o.CrashedAfterSend?
    ensures PendingCount(SendEvent(d, i, o).outbox) == PendingCount(db.outbox) - |picked| - 1
    ensures Resolved(db.outbox, SendEvent(d, i, o).outbox, picked + [i], outcomes + [o])
  {
    SentOutbox(d, i, o);
    PendingAfterUpdate(d.outbox, i, Ended(o));
    OneMoreResolved(db.outbox, d.outbox, picked, outcomes, i, o);
  }

  /** Different pending events, none of whose sends crashed. */
  ghost predicate Sendable(db: Db, picked: seq<nat>, outcomes: seq<SendOutcome>) {
    && |outcomes| == |picked|
    && (forall k :: 0 <= k < |picked| ==> picked[k] < |db.outbox| && db.outbox[picked[k]].status.Pending?)
    && (forall k :: 0 <= k < |picked| ==> !outcomes[k].CrashedAfterSend?)
    && (forall j, k :: 0 <= j < k < |picked| ==> picked[j] != picked[k])
  }

  lemma AllButLast(db: Db, picked: seq<nat>, outcomes: seq<SendOutcome>)
    requires Sendable(db, picked, outcomes) && picked != []
    ensures var n := |picked| - 1;
      && Sendable(db, picked[..n], outcomes[..n]) && picked[n] !in picked[..n]
      && picked[..n] + [picked[n]] == picked && outcomes[..n] + [outcomes[n]] == outcomes
      && !outcomes[n].CrashedAfterSend? && picked[n] < |db.outbox| && db.outbox[picked[n]].status.Pending?
  {
  }

  /** A batch takes each of its events off the queue, sent or failed, and touches no other. */
  lemma {:induction false} BatchTakesEachOffTheQueue(db: Db, picked: seq<nat>, outcomes: seq<SendOutcome>)
    requires Sendable(db, picked, outcomes)
    ensures PendingCount(SendBatch(db, picked, outcomes).outbox) == PendingCount(db.outbox) - |picked|
    ensures Resolved(db.outbox, SendBatch(db, picked, outcomes).outbox, picked, outcomes)
  {
    if picked != [] {
      var n := |picked| - 1;
      AllButLast(db, picked, outcomes);
      BatchTakesEachOffTheQueue(db, picked[..n], outcomes[..n]);
      OneMoreSent(db, SendBatch(db, picked[..n], outcomes[..n]), picked[..n], outcomes[..n], picked[n], outcomes[n]);
    }
  }

  lemma {:induction false} CountForConcat(xs: seq<OutboxEvent>, ys: seq<OutboxEvent>, id: string)
    ensures CountFor(xs + ys, id) == CountFor(xs, id) + CountFor(ys, id)
  {
    if ys == [] {
      assert xs + ys == xs;
    } else {
      var n := |ys| - 1;
      assert (xs + ys)[..|xs + ys| - 1] == xs + ys[..n];
      CountForConcat(xs, ys[..n], id);
    }
  }
}
