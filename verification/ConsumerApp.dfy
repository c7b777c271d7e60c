/**
 `KafkaConsumerApp` itself: fields updated in place by the poll loop, each method equal to its step of
 the consumer's specification.
 */
module ConsumerApp {
  import opened Wrappers
  import opened Payloads
  import opened Consumer

  class KafkaConsumerApp {
    const codec: Codec

    // the broker's side
    var log: map<Partition, seq<Message>>
    var position: map<Partition, nat>
    var committed: map<Partition, nat>

    // the process's memory
    var txBuffer: seq<Entry>
    var activityBuffer: seq<Entry>
    var malformedBatch: seq<Entry>
    var lastFlushTime: int

    // ClickHouse's side
    var rows: seq<Row>

    ghost function View(): State
      reads this
    {
      State(log, position, committed, txBuffer, activityBuffer, malformedBatch, rows, lastFlushTime)
    }

    constructor (codec: Codec, log: map<Partition, seq<Message>>, committed: map<Partition, nat>, rows: seq<Row>,
        now: int)
      ensures this.codec == codec
      ensures View() == State(log, committed, committed, [], [], [], rows, now)
    {
      this.codec := codec;
      this.log, this.position, this.committed, this.rows := log, committed, committed, rows;
      txBuffer, activityBuffer, malformedBatch, lastFlushTime := [], [], [], now;
    }

    method CommitOffsets(env: Env)
      modifies this`committed
      ensures View() == Commit(old(View()), env)
    {
      if env.commitLands {
        committed := position;
      }
    }

    method FlushAll(env: Env) returns (raised: bool)
      modifies this
      ensures (View(), raised) == Consumer.FlushAll(codec, old(View()), env)
    {
      if txBuffer == [] && activityBuffer == [] {
        return false;
      }

      var txSuccess := true;
      var data := PrepareAll(codec, Transactions, txBuffer);
      if data.None? {
        return true;
      }
      if data.value != [] {
        if !env.tx.Failed? {
          rows := rows + data.value;
        }
        txSuccess := env.tx.Landed?;
      }

      var activitySuccess := true;
      data := PrepareAll(codec, Activity, activityBuffer);
      if data.None? {
        return true;
      }
      if data.value != [] {
        if !env.activity.Failed? {
          rows := rows + data.value;
        }
        activitySuccess := env.activity.Landed?;
      }

      malformedBatch := [];
      assert old(rows) + [] == old(rows) && rows + [] == rows;

      if txSuccess && activitySuccess {
        CommitOffsets(env);
        txBuffer := [];
        activityBuffer := [];
        lastFlushTime := env.now;
      }
      return false;
    }

    method HandleMessage(p: Partition, env: Env)
      modifies this
      ensures View() == Handle(codec, old(View()), p, env)
    {
      var offset := At(position, p);
      var messages := if p in log then log[p] else [];
      if offset >= |messages| {
        return;
      }
      position := position[p := offset + 1];
      match Read(codec, p.topic, messages[offset]) {
        case Raises =>
          CommitOffsets(env);
        case Malformed(val) =>
          malformedBatch := malformedBatch + [Entry(p, offset, val)];
          CommitOffsets(env);
        case Accepted(val) =>
          if p.topic.Activity? {
            activityBuffer := activityBuffer + [Entry(p, offset, val)];
          } else {
            txBuffer := txBuffer + [Entry(p, offset, val)];
          }
          if |txBuffer| + |activityBuffer| >= BATCH_SIZE {
            var raised := FlushAll(env);
            if raised {
              CommitOffsets(env);
            }
          }
      }
    }

    method StartAgain(now: int)
      modifies this
      ensures View() == Restart(old(View()), now)
    {
      position := committed;
      txBuffer, activityBuffer, malformedBatch, lastFlushTime := [], [], [], now;
    }

    /** The poll loop, over whatever happens to it; a process that ends is started again. */
    method PollLoop(events: seq<Event>)
      modifies this
      ensures View() == Run(codec, old(View()), events)
    {
      var i := 0;
      while i < |events|
        invariant 0 <= i <= |events|
        invariant Run(codec, View(), events[i..]) == Run(codec, old(View()), events)
      {
        assert events[i..][0] == events[i] && events[i..][1..] == events[i + 1..];
        match events[i] {
          case Produce(p, m) =>
            log := log[p := (if p in log then log[p] else []) + [m]];
          case Idle(env) =>
            if env.now - lastFlushTime >= FLUSH_INTERVAL {
              var raised := FlushAll(env);
              if raised {
                var _ := FlushAll(env);
                StartAgain(env.now);
              }
            }
          case BrokerError =>
          case Deliver(p, env) =>
            HandleMessage(p, env);
          case Shutdown(env) =>
            var _ := FlushAll(env);
            StartAgain(env.now);
          case Crash(now) =>
            StartAgain(now);
        }
        i := i + 1;
      }
      assert events[i..] == [];
    }
  }
}
