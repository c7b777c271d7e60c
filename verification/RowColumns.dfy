/**
 The ClickHouse row of a message, column by column (backend/handlers/message_handlers.py): which key of the payload
 each column comes from, and what stands for a missing or empty one.
 */
module RowColumns {
  import opened Wrappers
  import opened Payloads
  import opened Consumer

  /** The payload's value under a key, or the default where the key is missing or its value empty. */
  function Column(m: map<string, Json>, key: string, default: string): Json {
    if key !in m || m[key] in {Null, Num(0), Str(""), Arr([]), Obj(map[])} then Str(default) else m[key]
  }

  /** The payload's value under a key, a null where it is missing. */
  function Nullable(m: map<string, Json>, key: string): Json {
    if key in m then m[key] else Null
  }

  /** The row tells this transaction event. */
  ghost predicate TellsTx(c: Codec, m: map<string, Json>, r: Row) {
    && r.TxRow?
    && {"transaction_id", "account_id", "amount", "category", "merchant", "timestamp"} <= m.Keys
    && r.transactionId == m["transaction_id"] && r.accountId == m["account_id"] && r.amount == m["amount"]
    && r.category == m["category"] && r.merchant == m["merchant"]
    && r.parentId == Column(m, "parent_id", "00000000-0000-0000-0000-000000000000")
    && r.senderEmail == Column(m, "sender_email", "") && r.recipientEmail == Column(m, "recipient_email", "")
    && r.transactionType == Column(m, "transaction_type", "expense")
    && r.transactionSide == Column(m, "transaction_side", "")
    && r.last4 == Column(m, "internal_account_last_4", "")
    && r.subscriberId == Nullable(m, "subscriber_id") && r.failureReason == Nullable(m, "failure_reason")
    && r.status == Column(m, "status", "pending")
    && c.time(m["timestamp"]) == Some(r.eventTime)
  }

  /** The row tells this activity event. */
  ghost predicate TellsActivity(c: Codec, m: map<string, Json>, r: Row) {
    && r.ActivityRow?
    && {"event_id", "user_id", "category", "action", "event_time", "title"} <= m.Keys
    && r.eventId == m["event_id"] && r.userId == m["user_id"] && r.category == m["category"]
    && r.action == m["action"] && r.title == m["title"]
    && r.details == (if "details" in m then m["details"] else Str("{}"))
    && c.time(m["event_time"]) == Some(r.eventTime)
  }

  ghost predicate TellsPayload(c: Codec, t: Topic, m: map<string, Json>, r: Row) {
    if t.Activity? then TellsActivity(c, m, r) else TellsTx(c, m, r)
  }

  /** The row tells the message: its topic's columns of the decrypted object. */
  ghost predicate TellsMessage(c: Codec, p: Partition, m: Message, r: Row) {
    m.Value? && m.json.Obj? && TellsPayload(c, p.topic, Decrypt(c, m.json.fields), r)
  }

  lemma OrIsColumn(m: map<string, Json>, key: string, default: string)
    ensures Or(m, key, default) == Column(m, key, default)
  {
  }

  /** A row is built from an object with the required keys and a time that can be parsed, and from nothing else. */
  lemma RowExactly(c: Codec, t: Topic, val: Json)
    ensures Prepare(c, t, val).Some? <==> val.Obj? && exists r :: TellsPayload(c, t, val.fields, r)
    ensures Prepare(c, t, val).Some? ==> TellsPayload(c, t, val.fields, Prepare(c, t, val).value)
  {
    if val.Obj? {
      var m := val.fields;
      OrIsColumn(m, "parent_id", NULL_UUID);
      OrIsColumn(m, "sender_email", "");
      OrIsColumn(m, "recipient_email", "");
      OrIsColumn(m, "transaction_type", "expense");
      OrIsColumn(m, "transaction_side", "");
      OrIsColumn(m, "internal_account_last_4", "");
      OrIsColumn(m, "status", "pending");
      if Prepare(c, t, val).Some? {
        assert TellsPayload(c, t, m, Prepare(c, t, val).value);
      }
    }
  }

  /** The row a message stands for tells it. */
  lemma MessageTold(c: Codec, p: Partition, m: Message)
    requires RowOf(c, p, m).Some?
    ensures TellsMessage(c, p, m, RowOf(c, p, m).value)
  {
    var val := Read(c, p.topic, m).val;
    RowExactly(c, p.topic, val);
  }

  /** Two rows that tell the same payload are the same row. */
  lemma ToldOnce(c: Codec, t: Topic, m: map<string, Json>, r: Row, q: Row)
    requires TellsPayload(c, t, m, r) && TellsPayload(c, t, m, q)
    ensures r == q
  {
  }
}
