/**
 The Kafka-to-ClickHouse consumer (backend/consumer.py, backend/handlers/message_handlers.py).

 `State` holds the consumer's fields together with the two stores it talks to: the broker's
 append-only logs with their committed offsets, and ClickHouse's rows.  `Step` is one round of the
 poll loop, or something that happens to the process.  What the broker and ClickHouse answer comes
 with the event.
 */
module Consumer {
  import opened Wrappers
  import opened Payloads

  datatype Topic = Transactions | Activity

  datatype Partition = Partition(topic: Topic, index: nat)

  /** A message's bytes: not UTF-8 JSON, or a JSON value. */
  datatype Message = Garbage | Value(json: Json)

  /** A decrypted value that was taken from a partition. */
  datatype Entry = Entry(part: Partition, offset: nat, val: Json)

  datatype Row =
    | TxRow(transactionId: Json, parentId: Json, accountId: Json, senderEmail: Json, recipientEmail: Json,
            amount: Json, category: Json, merchant: Json, transactionType: Json, transactionSide: Json,
            eventTime: int, last4: Json, subscriberId: Json, failureReason: Json, status: Json)
    | ActivityRow(eventId: Json, userId: Json, category: Json, action: Json, eventTime: int, title: Json, details: Json)

  datatype State = State(
    log: map<Partition, seq<Message>>,
    position: map<Partition, nat>,
    committed: map<Partition, nat>,
    txBuffer: seq<Entry>,
    activityBuffer: seq<Entry>,
    malformed: seq<Entry>,
    rows: seq<Row>,
    lastFlush: int)

  /** How an insert ends.  One that is reported as failed may still have reached ClickHouse. */
  datatype Insert = Landed | Failed | FailedButLanded

  /** The outside of one round: the clock, the two inserts, and whether the asynchronous commit arrives. */
  datatype Env = Env(now: int, tx: Insert, activity: Insert, commitLands: bool)

  datatype Event =
    | Produce(p: Partition, m: Message)
    | Idle(env: Env)
    | BrokerError
    | Deliver(p: Partition, env: Env)
    | Shutdown(env: Env)
    | Crash(now: int)

  const BATCH_SIZE := 100
  const FLUSH_INTERVAL := 5
  const NULL_UUID := "00000000-0000-0000-0000-000000000000"

  // ---------------------------------------------------------------- reading one message

  function Required(t: Topic): set<string> {
    match t
    case Activity => {"event_id", "user_id", "category", "action", "event_time", "title"}
    case Transactions => {"transaction_id", "account_id", "amount", "category", "merchant", "timestamp"}
  }

  datatype Verdict = Complete | FieldsMissing | TypeError

  /** Python's `f not in val` for every required f: keys of a dictionary, but also parts of a string
      and elements of a list; anything else is a TypeError. */
  function Validate(t: Topic, val: Json): Verdict {
    match val
    case Obj(fields) => if Required(t) <= fields.Keys then Complete else FieldsMissing
    case Str(s) => if forall f :: f in Required(t) ==> Contains(s, f) then Complete else FieldsMissing
    case Arr(items) => if forall f :: f in Required(t) ==> Str(f) in items then Complete else FieldsMissing
    case _ => TypeError
  }

  datatype Reading = Raises | Malformed(val: Json) | Accepted(val: Json)

  function Read(c: Codec, t: Topic, m: Message): Reading {
    match m
    case Garbage => Raises
    case Value(j) =>
      var val := if j.Obj? then Obj(Decrypt(c, j.fields)) else j;
      match Validate(t, val)
      case Complete => Accepted(val)
      case FieldsMissing => Malformed(val)
      case TypeError => Raises
  }

  predicate Truthy(j: Json) {
    match j
    case Null => false
    case Num(n) => n != 0
    case Str(s) => s != ""
    case Arr(items) => items != []
    case Obj(fields) => fields != map[]
  }

  function Get(m: map<string, Json>, k: string): Json {
    if k in m then m[k] else Null
  }

  function Or(m: map<string, Json>, k: string, default: string): Json {
    if Truthy(Get(m, k)) then m[k] else Str(default)
  }

  /** The ClickHouse row of a buffered value, or None where building it raises. */
  function Prepare(c: Codec, t: Topic, val: Json): Option<Row> {
    if !val.Obj? || !(Required(t) <= val.fields.Keys) then None
    else
      var m := val.fields;
      match t
      case Transactions =>
        (match c.time(m["timestamp"])
         case None => None
         case Some(at) => Some(TxRow(
           m["transaction_id"], Or(m, "parent_id", NULL_UUID), m["account_id"],
           Or(m, "sender_email", ""), Or(m, "recipient_email", ""), m["amount"], m["category"], m["merchant"],
           Or(m, "transaction_type", "expense"), Or(m, "transaction_side", ""), at,
           Or(m, "internal_account_last_4", ""), Get(m, "subscriber_id"), Get(m, "failure_reason"),
           Or(m, "status", "pending"))))
      case Activity =>
        (match c.time(m["event_time"])
         case None => None
         case Some(at) => Some(ActivityRow(
           m["event_id"], m["user_id"], m["category"], m["action"], at, m["title"],
           if "details" in m then m["details"] else Str("{}"))))
  }

  /** The row a message stands for; None when the consumer drops it or can never insert it. */
  function RowOf(c: Codec, p: Partition, m: Message): Option<Row> {
    match Read(c, p.topic, m)
    case Accepted(val) => Prepare(c, p.topic, val)
    case _ => None
  }

  function PrepareAll(c: Codec, t: Topic, buffer: seq<Entry>): Option<seq<Row>> {
    if forall i :: 0 <= i < |buffer| ==> Prepare(c, t, buffer[i].val).Some?
    then Some(seq(|buffer|, i requires 0 <= i < |buffer| && Prepare(c, t, buffer[i].val).Some? =>
                Prepare(c, t, buffer[i].val).value))
    else None
  }

  // ---------------------------------------------------------------- the poll loop

  function At(m: map<Partition, nat>, p: Partition): nat {
    if p in m then m[p] else 0
  }

  function Log(s: State, p: Partition): seq<Message> {
    if p in s.log then s.log[p] else []
  }

  function Buffer(s: State, t: Topic): seq<Entry> {
    if t.Activity? then s.activityBuffer else s.txBuffer
  }

  function Arriving(rows: seq<Row>, ins: Insert): seq<Row> {
    if ins.Failed? then [] else rows
  }

  function Commit(s: State, env: Env): State {
    if env.commitLands then s.(committed := s.position) else s
  }

  /** `flush_all`; the flag says that preparing a buffer raised. */
  function FlushAll(c: Codec, s: State, env: Env): (State, bool) {
    if s.txBuffer == [] && s.activityBuffer == [] then (s, false)
    else
      match PrepareAll(c, Transactions, s.txBuffer)
      case None => (s, true)
      case Some(tx) =>
        var s1 := s.(rows := s.rows + Arriving(tx, env.tx));
        match PrepareAll(c, Activity, s.activityBuffer)
        case None => (s1, true)
        case Some(activity) =>
          var s2 := s1.(rows := s1.rows + Arriving(activity, env.activity), malformed := []);
          if (tx == [] || env.tx.Landed?) && (activity == [] || env.activity.Landed?)
          then (Commit(s2, env).(txBuffer := [], activityBuffer := [], lastFlush := env.now), false)
          else (s2, false)
  }

  /** A new process: the buffers are gone and polling resumes at the committed offsets. */
  function Restart(s: State, now: int): State {
    s.(position := s.committed, txBuffer := [], activityBuffer := [], malformed := [], lastFlush := now)
  }

  function Push(s: State, p: Partition, e: Entry): State {
    if p.topic.Activity? then s.(activityBuffer := s.activityBuffer + [e]) else s.(txBuffer := s.txBuffer + [e])
  }

  function Handle(c: Codec, s: State, p: Partition, env: Env): State {
    if At(s.position, p) >= |Log(s, p)| then s
    else
      var o := At(s.position, p);
      var s1 := s.(position := s.position[p := o + 1]);
      match Read(c, p.topic, Log(s, p)[o])
      case Raises => Commit(s1, env)
      case Malformed(val) => Commit(s1.(malformed := s1.malformed + [Entry(p, o, val)]), env)
      case Accepted(val) =>
        var s2 := Push(s1, p, Entry(p, o, val));
        if |s2.txBuffer| + |s2.activityBuffer| < BATCH_SIZE then s2
        else
          var (s3, raised) := FlushAll(c, s2, env);
          if raised then Commit(s3, env) else s3
  }

  function Step(c: Codec, s: State, e: Event): State {
    match e
    case Produce(p, m) => s.(log := s.log[p := Log(s, p) + [m]])
    case Idle(env) =>
      if env.now - s.lastFlush < FLUSH_INTERVAL then s
      else
        var (s1, raised) := FlushAll(c, s, env);
        // an exception outside the per-message handler ends the loop; its cleanup flushes once more
        if raised then Restart(FlushAll(c, s1, env).0, env.now) else s1
    case BrokerError => s
    case Deliver(p, env) => Handle(c, s, p, env)
    case Shutdown(env) => Restart(FlushAll(c, s, env).0, env.now)
    case Crash(now) => Restart(s, now)
  }

  function Run(c: Codec, s: State, es: seq<Event>): State
    decreases |es|
  {
    if es == [] then s else Run(c, Step(c, s, es[0]), es[1..])
  }
}
