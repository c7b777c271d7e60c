/**
 The whole event pipeline: Postgres tables, relay, Kafka, consumer and ClickHouse, in any interleaving.
 Each relay send, settle pass and sync pass is one atomic step; the consumer's own steps, with its failed
 inserts, lost commits and crashes, run in between.
 */
module Pipeline {
  import opened Wrappers
  import opened Payloads
  import opened Consumer
  import opened Delivery
  import opened RowColumns
  import opened Outbox
  import opened SyncChecker

  datatype World = World(db: Db, k: State)

  datatype WStep =
    | Emit(tx: Tx, events: seq<OutboxEvent>)
    | Relay(i: nat, p: Partition, outcome: SendOutcome)
    | SettleAt(now: int)
    | SyncAt(now: int, chStatus: map<string, Json>)
    | Consume(e: Event)

  predicate Enabled(w: World, st: WStep) {
    match st
    case Emit(tx, events) =>
      && (forall i :: 0 <= i < |w.db.txs| ==> w.db.txs[i].id != tx.id)
      && (forall i :: 0 <= i < |events| ==> events[i].status.Pending?)
    case Relay(i, p, _) =>
      i < |w.db.outbox| && w.db.outbox[i].status.Pending? && p.topic == TargetTopic(w.db.outbox[i].eventType)
    case Consume(e) => !e.Produce?
    case _ => true
  }

  function Next(c: Codec, w: World, st: WStep): World
    requires Enabled(w, st)
  {
    match st
    case Emit(tx, events) => w.(db := Db(w.db.txs + [tx], w.db.outbox + events))
    case Relay(i, p, o) =>
      World(SendEvent(w.db, i, o),
            if Lands(o) then Step(c, w.k, Produce(p, Sealing(c, w.db.outbox[i]))) else w.k)
    case SettleAt(now) => w.(db := Settle(c, w.db, now))
    case SyncAt(now, chStatus) => w.(db := SyncPass(c, w.db, now, chStatus))
    case Consume(e) => w.(k := Step(c, w.k, e))
  }

  predicate Possible(c: Codec, w: World, steps: seq<WStep>)
    decreases |steps|
  {
    steps == [] || (Enabled(w, steps[0]) && Possible(c, Next(c, w, steps[0]), steps[1..]))
  }

  function After(c: Codec, w: World, steps: seq<WStep>): World
    requires Possible(c, w, steps)
    decreases |steps|
  {
    if steps == [] then w else After(c, Next(c, w, steps[0]), steps[1..])
  }

  // ---------------------------------------------------------------- settlement is final

  /** Rows stay in place, and a terminal one does not change. */
  ghost predicate TerminalKept(was: seq<Tx>, later: seq<Tx>) {
    && |was| <= |later|
    && forall i :: 0 <= i < |was| ==>
         && later[i].id == was[i].id && later[i].createdAt == was[i].createdAt
         && (was[i].status in TERMINAL ==> later[i] == was[i])
  }

  lemma NextKeepsTerminal(c: Codec, w: World, st: WStep)
    requires Enabled(w, st)
    ensures TerminalKept(w.db.txs, Next(c, w, st).db.txs)
  {
  }

  /** In every interleaving of sends, passes, new transactions and consumer steps a terminal status never changes. */
  lemma {:induction false} TerminalIsFinal(c: Codec, w: World, steps: seq<WStep>)
    requires Possible(c, w, steps)
    ensures TerminalKept(w.db.txs, After(c, w, steps).db.txs)
    decreases |steps|
  {
    if steps != [] {
      NextKeepsTerminal(c, w, steps[0]);
      TerminalIsFinal(c, Next(c, w, steps[0]), steps[1..]);
    }
  }

  /** Every status is either open for settlement or terminal. */
  ghost predicate KnownStatuses(txs: seq<Tx>) {
    forall i :: 0 <= i < |txs| ==> txs[i].status in SETTLEABLE + TERMINAL
  }

  ghost predicate EmitsKnown(steps: seq<WStep>) {
    forall st :: st in steps && st.Emit? ==> st.tx.status in SETTLEABLE + TERMINAL
  }

  lemma {:induction false} StatusesStayKnown(c: Codec, w: World, steps: seq<WStep>)
    requires Possible(c, w, steps) && KnownStatuses(w.db.txs) && EmitsKnown(steps)
    ensures KnownStatuses(After(c, w, steps).db.txs)
    decreases |steps|
  {
    if steps != [] {
      assert steps[0] in steps;
      assert forall st :: st in steps[1..] ==> st in steps;
      StatusesStayKnown(c, Next(c, w, steps[0]), steps[1..]);
    }
  }

  /** After any run, a settle pass leaves no transaction older than 45 seconds short of a terminal status. */
  lemma SettlementIsComplete(c: Codec, w: World, steps: seq<WStep>, now: int)
    requires Possible(c, w, steps) && KnownStatuses(w.db.txs) && EmitsKnown(steps)
    ensures forall tx :: tx in Settle(c, After(c, w, steps).db, now).txs && tx.createdAt <= now - 45 ==>
      tx.status in {"cleared", "settled", "failed", "cancelled"}
  {
    StatusesStayKnown(c, w, steps);
    var db := After(c, w, steps).db;
    forall tx | tx in Settle(c, db, now).txs && tx.createdAt <= now - 45
      ensures tx.status in TERMINAL
    {
      var i :| 0 <= i < |db.txs| && Settle(c, db, now).txs[i] == tx;
      assert tx == SettleOne(db.txs[i], now);
    }
  }

  // ---------------------------------------------------------------- no event is lost

  /** The event's row, once it is read back from its message. */
  function EventRow(c: Codec, e: OutboxEvent): Option<Row> {
    if Required(TargetTopic(e.eventType)) <= e.payload.Keys
    then Prepare(c, TargetTopic(e.eventType), Obj(e.payload))
    else None
  }

  /** The row tells the event's payload, column by column. */
  ghost predicate TellsEvent(c: Codec, e: OutboxEvent, r: Row) {
    if e.eventType == "activity_event" then TellsActivity(c, e.payload, r) else TellsTx(c, e.payload, r)
  }

  /** The message of an event reads back as its payload; the consumer's validation of the message gives the
      same answer as validating the payload would. */
  lemma MessageReadsBack(c: Codec, p: Partition, e: OutboxEvent)
    requires Lawful(c) && p.topic == TargetTopic(e.eventType)
    ensures RowOf(c, p, Sealing(c, e)) == EventRow(c, e)
    ensures Read(c, p.topic, Sealing(c, e)).Accepted? <==> Required(p.topic) <= e.payload.Keys
    ensures EventRow(c, e).Some? ==> TellsEvent(c, e, EventRow(c, e).value)
  {
    RoundTrip(c, e.payload);
    RowExactly(c, p.topic, Obj(e.payload));
  }

  /** The event can still have been sent since the outbox was `was`: it was pending then, or is newer. */
  predicate Active(was: seq<OutboxEvent>, i: nat) {
    i >= |was| || was[i].status.Pending?
  }

  ghost predicate Carries(c: Codec, events: seq<OutboxEvent>, i: nat, p: Partition, m: Message) {
    i < |events| && p.topic == TargetTopic(events[i].eventType) && m == Sealing(c, events[i])
  }

  ghost predicate Traced(c: Codec, was: seq<OutboxEvent>, events: seq<OutboxEvent>, p: Partition, m: Message) {
    exists i: nat :: Active(was, i) && Carries(c, events, i, p, m)
  }

  ghost predicate Logged(c: Codec, base: map<Partition, nat>, w: World, i: nat) {
    exists p: Partition, o: nat ::
      At(base, p) <= o < |Log(w.k, p)| && Carries(c, w.db.outbox, i, p, Log(w.k, p)[o])
  }

  /** Messages since `base` carry active events, and every active processed event has its message. */
  ghost predicate Linked(c: Codec, base: map<Partition, nat>, was: seq<OutboxEvent>, w: World) {
    && (forall p: Partition, o: nat :: At(base, p) <= o < |Log(w.k, p)| ==>
          Traced(c, was, w.db.outbox, p, Log(w.k, p)[o]))
    && (forall i: nat :: i < |w.db.outbox| && Active(was, i) && w.db.outbox[i].status.Processed? ==>
        Logged(c, base, w, i))
    && |was| <= |w.db.outbox|
    && (forall i :: 0 <= i < |was| && !was[i].status.Pending? ==> !w.db.outbox[i].status.Pending?)
  }

  /** The log only grows, and events keep their type and payload. */
  ghost predicate Grows(w: World, w': World) {
    && (forall p :: Log(w.k, p) <= Log(w'.k, p))
    && |w.db.outbox| <= |w'.db.outbox|
    && (forall i :: 0 <= i < |w.db.outbox| ==>
          && w'.db.outbox[i].eventType == w.db.outbox[i].eventType
          && w'.db.outbox[i].payload == w.db.outbox[i].payload)
  }

  lemma LoggedStays(c: Codec, base: map<Partition, nat>, w: World, w': World, i: nat)
    requires Grows(w, w') && Logged(c, base, w, i)
    ensures Logged(c, base, w', i)
  {
    var p: Partition, o: nat :|
      At(base, p) <= o < |Log(w.k, p)| && Carries(c, w.db.outbox, i, p, Log(w.k, p)[o]);
    assert Log(w'.k, p)[o] == Log(w.k, p)[o];
    assert Carries(c, w'.db.outbox, i, p, Log(w'.k, p)[o]);
  }

  lemma TracedStays(c: Codec, was: seq<OutboxEvent>, w: World, w': World, p: Partition, m: Message)
    requires Grows(w, w') && Traced(c, was, w.db.outbox, p, m)
    ensures Traced(c, was, w'.db.outbox, p, m)
  {
    var i: nat :| Active(was, i) && Carries(c, w.db.outbox, i, p, m);
    assert Carries(c, w'.db.outbox, i, p, m);
  }

  /** A step that logs nothing and processes no event. */
  lemma SameLogLinked(c: Codec, base: map<Partition, nat>, was: seq<OutboxEvent>, w: World, w': World)
    requires Linked(c, base, was, w) && Grows(w, w') && forall p :: Log(w'.k, p) == Log(w.k, p)
    requires forall i :: 0 <= i < |w.db.outbox| ==>
      w'.db.outbox[i].status == w.db.outbox[i].status || w'.db.outbox[i].status.FailedEvent?
    requires forall i :: |w.db.outbox| <= i < |w'.db.outbox| ==> w'.db.outbox[i].status.Pending?
    ensures Linked(c, base, was, w')
  {
    forall p: Partition, o: nat | At(base, p) <= o < |Log(w'.k, p)|
      ensures Traced(c, was, w'.db.outbox, p, Log(w'.k, p)[o])
    {
      assert Log(w'.k, p) == Log(w.k, p);
      TracedStays(c, was, w, w', p, Log(w.k, p)[o]);
    }
    forall i: nat | i < |w'.db.outbox| && Active(was, i) && w'.db.outbox[i].status.Processed?
      ensures Logged(c, base, w', i)
    {
      LoggedStays(c, base, w, w', i);
    }
  }

  lemma RelayLinked(c: Codec, base: map<Partition, nat>, was: seq<OutboxEvent>, w: World, i: nat, p: Partition,
      o: SendOutcome)
    requires Linked(c, base, was, w) && Enabled(w, Relay(i, p, o)) && Lands(o)
    requires At(base, p) <= |Log(w.k, p)|
    ensures Linked(c, base, was, Next(c, w, Relay(i, p, o)))
  {
    var w' := Next(c, w, Relay(i, p, o));
    var n := |Log(w.k, p)|;
    assert forall q :: Log(w'.k, q) == if q == p then Log(w.k, p) + [Sealing(c, w.db.outbox[i])] else Log(w.k, q);
    assert Grows(w, w');
    assert Active(was, i);
    assert Carries(c, w'.db.outbox, i, p, Log(w'.k, p)[n]);
    forall q: Partition, x: nat | At(base, q) <= x < |Log(w'.k, q)|
      ensures Traced(c, was, w'.db.outbox, q, Log(w'.k, q)[x])
    {
      if q != p || x != n {
        TracedStays(c, was, w, w', q, Log(w.k, q)[x]);
      }
    }
    forall j: nat | j < |w'.db.outbox| && Active(was, j) && w'.db.outbox[j].status.Processed?
      ensures Logged(c, base, w', j)
    {
      if j != i {
        LoggedStays(c, base, w, w', j);
      }
    }
  }

  lemma NextLinked(c: Codec, base: map<Partition, nat>, was: seq<OutboxEvent>, w: World, st: WStep)
    requires Linked(c, base, was, w) && Enabled(w, st) && Sound(c, base, w.k)
    ensures Linked(c, base, was, Next(c, w, st)) && Sound(c, base, Next(c, w, st).k)
  {
    var w' := Next(c, w, st);
    match st
    case Emit(_, _) => SameLogLinked(c, base, was, w, w');
    case Relay(i, p, o) =>
      StepKeepsSound(c, base, w.k, Produce(p, Sealing(c, w.db.outbox[i])));
      if Lands(o) {
        RelayLinked(c, base, was, w, i, p, o);
      } else {
        SameLogLinked(c, base, was, w, w');
      }
    case SettleAt(now) =>
      SettlePending(c, w.db, now);
      SameLogLinked(c, base, was, w, w');
    case SyncAt(now, chStatus) =>
      SyncPassPending(c, w.db, now, chStatus);
      SameLogLinked(c, base, was, w, w');
    case Consume(e) =>
      StepKeepsSound(c, base, w.k, e);
      StepKeepsLog(c, w.k, e);
      SameLogLinked(c, base, was, w, w');
  }

  lemma SettlePending(c: Codec, db: Db, now: int)
    ensures forall i :: |db.outbox| <= i < |Settle(c, db, now).outbox| ==> Settle(c, db, now).outbox[i].status.Pending?
  {
    SettleEventsMembers(c, db.txs, now);
    var settle := SettleEvents(c, db.txs, now);
    forall i | |db.outbox| <= i < |db.outbox + settle|
      ensures (db.outbox + settle)[i].status.Pending?
    {
      var e := settle[i - |db.outbox|];
      assert e in settle && ReportsCleared(c, db.txs, now, e);
    }
  }

  /** A pass only appends, and what it appends is pending. */
  lemma SyncPassPending(c: Codec, db: Db, now: int, chStatus: map<string, Json>)
    ensures db.outbox <= SyncPass(c, db, now, chStatus).outbox
    ensures forall i :: |db.outbox| <= i < |SyncPass(c, db, now, chStatus).outbox| ==>
      SyncPass(c, db, now, chStatus).outbox[i].status.Pending?
  {
    var settled := Settle(c, db, now);
    var window := Windowed(settled.txs, now);
    var sync := SyncEvents(c, window, chStatus);
    SettlePending(c, db, now);
    SyncEventsMembers(c, window, chStatus);
    forall i | |settled.outbox| <= i < |settled.outbox + sync|
      ensures (settled.outbox + sync)[i].status.Pending?
    {
      var e := sync[i - |settled.outbox|];
      assert e in sync && Repairs(c, window, chStatus, e);
    }
  }

  lemma {:induction false} RunLinked(c: Codec, base: map<Partition, nat>, was: seq<OutboxEvent>, w: World,
      steps: seq<WStep>)
    requires Linked(c, base, was, w) && Possible(c, w, steps) && Sound(c, base, w.k)
    ensures Linked(c, base, was, After(c, w, steps))
    decreases |steps|
  {
    if steps != [] {
      NextLinked(c, base, was, w, steps[0]);
      RunLinked(c, base, was, Next(c, w, steps[0]), steps[1..]);
    }
  }

  /** What the consumer and its broker see of a run. */
  function Seen(c: Codec, w: World, steps: seq<WStep>): seq<Event>
    requires Possible(c, w, steps)
    decreases |steps|
  {
    if steps == [] then []
    else
      (match steps[0]
       case Relay(i, p, o) => if Lands(o) then [Produce(p, Sealing(c, w.db.outbox[i]))] else []
       case Consume(e) => [e]
       case _ => [])
      + Seen(c, Next(c, w, steps[0]), steps[1..])
  }

  lemma {:induction false} SeenIsTheRun(c: Codec, w: World, steps: seq<WStep>)
    requires Possible(c, w, steps)
    ensures After(c, w, steps).k == Run(c, w.k, Seen(c, w, steps))
    decreases |steps|
  {
    if steps != [] {
      var w' := Next(c, w, steps[0]);
      SeenIsTheRun(c, w', steps[1..]);
      var rest := Seen(c, w', steps[1..]);
      assert [] + rest == rest;
      match steps[0]
      case Relay(i, p, o) =>
        if Lands(o) {
          assert ([Produce(p, Sealing(c, w.db.outbox[i]))] + rest)[1..] == rest;
        }
      case Consume(e) => assert ([e] + rest)[1..] == rest;
      case _ =>
    }
  }

  ghost predicate Deliverable(c: Codec, was: seq<OutboxEvent>, events: seq<OutboxEvent>) {
    forall i: nat :: i < |events| && Active(was, i) ==> EventRow(c, events[i]).Some?
  }

  lemma LinkedIsClean(c: Codec, base: map<Partition, nat>, was: seq<OutboxEvent>, w: World)
    requires Lawful(c) && Linked(c, base, was, w) && Deliverable(c, was, w.db.outbox)
    ensures Clean(c, base, w.k)
  {
    forall p: Partition, o: nat | At(base, p) <= o < |Log(w.k, p)|
      ensures RowOf(c, p, Log(w.k, p)[o]).Some?
    {
      assert Traced(c, was, w.db.outbox, p, Log(w.k, p)[o]);
      var i: nat :| Active(was, i) && Carries(c, w.db.outbox, i, p, Log(w.k, p)[o]);
      MessageReadsBack(c, p, w.db.outbox[i]);
    }
  }

  lemma StartLinked(c: Codec, w: World)
    requires Drained(w.k)
    ensures Linked(c, w.k.committed, w.db.outbox, w)
  {
  }

  /** The event's message lies in the log past the base, and its row is stored once the offset is committed. */
  ghost predicate Delivered(c: Codec, base: map<Partition, nat>, w: World, i: nat)
    requires i < |w.db.outbox|
  {
    exists p: Partition, o: nat ::
      && At(base, p) <= o < |Log(w.k, p)| && Carries(c, w.db.outbox, i, p, Log(w.k, p)[o])
      && (o < At(w.k.committed, p) ==>
          && EventRow(c, w.db.outbox[i]).Some? && EventRow(c, w.db.outbox[i]).value in w.k.rows
          && TellsEvent(c, w.db.outbox[i], EventRow(c, w.db.outbox[i]).value))
  }

  lemma LinkedDelivers(c: Codec, base: map<Partition, nat>, was: seq<OutboxEvent>, w: World, i: nat)
    requires Lawful(c) && Linked(c, base, was, w) && Inv(c, base, w.k) && Durable(c, base, w.k)
    requires Deliverable(c, was, w.db.outbox)
    requires i < |w.db.outbox| && Active(was, i) && w.db.outbox[i].status.Processed?
    ensures Delivered(c, base, w, i)
  {
    var p: Partition, o: nat :|
      At(base, p) <= o < |Log(w.k, p)| && Carries(c, w.db.outbox, i, p, Log(w.k, p)[o]);
    MessageReadsBack(c, p, w.db.outbox[i]);
    if o < At(w.k.committed, p) {
      assert Stored(c, w.k, p, o);
    }
  }

  /** No event is lost: in every run of the pipeline, an event that was sent has its message in the log, and once
      the offset of that message is committed its row is in ClickHouse, however often the consumer failed. */
  lemma NoEventIsLost(c: Codec, w: World, steps: seq<WStep>, i: nat)
    requires Lawful(c) && Possible(c, w, steps) && Drained(w.k)
    requires Deliverable(c, w.db.outbox, After(c, w, steps).db.outbox)
    requires i < |After(c, w, steps).db.outbox| && Active(w.db.outbox, i)
    requires After(c, w, steps).db.outbox[i].status.Processed?
    ensures Delivered(c, w.k.committed, After(c, w, steps), i)
  {
    RunOfPipeline(c, w, steps);
    LinkedDelivers(c, w.k.committed, w.db.outbox, After(c, w, steps), i);
  }

  lemma RunOfPipeline(c: Codec, w: World, steps: seq<WStep>)
    requires Lawful(c) && Possible(c, w, steps) && Drained(w.k)
    requires Deliverable(c, w.db.outbox, After(c, w, steps).db.outbox)
    ensures var w' := After(c, w, steps);
      && Linked(c, w.k.committed, w.db.outbox, w')
      && Inv(c, w.k.committed, w'.k) && Durable(c, w.k.committed, w'.k)
      && NoJunk(c, w.k.committed, w.k.rows, w'.k) && w.k.rows <= w'.k.rows
  {
    var base := w.k.committed;
    var es := Seen(c, w, steps);
    StartLinked(c, w);
    FreshInv(c, w.k);
    RunLinked(c, base, w.db.outbox, w, steps);
    LinkedIsClean(c, base, w.db.outbox, After(c, w, steps));
    SeenIsTheRun(c, w, steps);
    AtLeastOnce(c, w.k, es);
    RowsComeFromMessages(c, w.k, es);
    RunKeepsRows(c, w.k, es);
  }

  /** Once the consumer has caught up, ClickHouse has gained the rows of the sent events and no others. */
  lemma DrainedMeansStored(c: Codec, w: World, steps: seq<WStep>)
    requires Lawful(c) && Possible(c, w, steps) && Drained(w.k)
    requires Deliverable(c, w.db.outbox, After(c, w, steps).db.outbox) && Drained(After(c, w, steps).k)
    ensures var w' := After(c, w, steps);
      && (forall i: nat :: i < |w'.db.outbox| && Active(w.db.outbox, i) && w'.db.outbox[i].status.Processed? ==>
            EventRow(c, w'.db.outbox[i]).value in w'.k.rows
            && TellsEvent(c, w'.db.outbox[i], EventRow(c, w'.db.outbox[i]).value))
      && (forall r :: r in w'.k.rows && r !in w.k.rows ==>
            exists i: nat :: i < |w'.db.outbox| && Active(w.db.outbox, i) && EventRow(c, w'.db.outbox[i]) == Some(r))
  {
    var base := w.k.committed;
    var w' := After(c, w, steps);
    forall i: nat | i < |w'.db.outbox| && Active(w.db.outbox, i) && w'.db.outbox[i].status.Processed?
      ensures EventRow(c, w'.db.outbox[i]).value in w'.k.rows
      ensures TellsEvent(c, w'.db.outbox[i], EventRow(c, w'.db.outbox[i]).value)
    {
      NoEventIsLost(c, w, steps, i);
      MessageReadsBack(c, Partition(TargetTopic(w'.db.outbox[i].eventType), 0), w'.db.outbox[i]);
    }
    RunOfPipeline(c, w, steps);
    forall r | r in w'.k.rows && r !in w.k.rows
      ensures exists i: nat :: i < |w'.db.outbox| && Active(w.db.outbox, i) && EventRow(c, w'.db.outbox[i]) == Some(r)
    {
      assert FromLog(c, base, w'.k, r);
      var p: Partition, o: nat :| At(base, p) <= o < |Log(w'.k, p)| && RowOf(c, p, Log(w'.k, p)[o]) == Some(r);
      assert Traced(c, w.db.outbox, w'.db.outbox, p, Log(w'.k, p)[o]);
      var i: nat :| Active(w.db.outbox, i) && Carries(c, w'.db.outbox, i, p, Log(w'.k, p)[o]);
      MessageReadsBack(c, p, w'.db.outbox[i]);
    }
  }

  // ---------------------------------------------------------------- the pipeline can always catch up

  lemma {:induction false} AfterConcat(c: Codec, w: World, xs: seq<WStep>, ys: seq<WStep>)
    requires Possible(c, w, xs) && Possible(c, After(c, w, xs), ys)
    ensures Possible(c, w, xs + ys) && After(c, w, xs + ys) == After(c, After(c, w, xs), ys)
    decreases |xs|
  {
    if xs == [] {
      assert xs + ys == ys;
    } else {
      assert (xs + ys)[1..] == xs[1..] + ys;
      AfterConcat(c, Next(c, w, xs[0]), xs[1..], ys);
    }
  }

  function Consuming(es: seq<Event>): seq<WStep> {
    seq(|es|, i requires 0 <= i < |es| => Consume(es[i]))
  }

  lemma {:induction false} ConsumingRuns(c: Codec, w: World, es: seq<Event>)
    requires Quiet(es)
    ensures Possible(c, w, Consuming(es)) && After(c, w, Consuming(es)) == World(w.db, Run(c, w.k, es))
    decreases |es|
  {
    if es != [] {
      assert es[0] in es;
      assert Consuming(es)[1..] == Consuming(es[1..]);
      ConsumingRuns(c, World(w.db, Step(c, w.k, es[0])), es[1..]);
    }
  }

  /** Sending everything pending from index `j` on. */
  lemma {:induction false} SendRest(c: Codec, w: World, j: nat) returns (steps: seq<WStep>)
    requires j <= |w.db.outbox|
    ensures Possible(c, w, steps) && forall st :: st in steps ==> st.Relay?
    ensures var w' := After(c, w, steps);
      && |w'.db.outbox| == |w.db.outbox|
      && forall i :: 0 <= i < |w.db.outbox| ==>
           w'.db.outbox[i] == if i >= j && w.db.outbox[i].status.Pending?
                              then w.db.outbox[i].(status := Processed) else w.db.outbox[i]
    decreases |w.db.outbox| - j
  {
    if j == |w.db.outbox| {
      steps := [];
    } else if w.db.outbox[j].status.Pending? {
      var st := Relay(j, Partition(TargetTopic(w.db.outbox[j].eventType), 0), Sent);
      var rest := SendRest(c, Next(c, w, st), j + 1);
      steps := [st] + rest;
      assert steps[1..] == rest;
    } else {
      steps := SendRest(c, w, j + 1);
    }
  }

  lemma {:induction false} SendsOnlyProduce(c: Codec, w: World, steps: seq<WStep>)
    requires Possible(c, w, steps) && forall st :: st in steps ==> st.Relay?
    ensures forall e :: e in Seen(c, w, steps) ==> e.Produce?
    decreases |steps|
  {
    if steps != [] {
      assert steps[0] in steps;
      SendsOnlyProduce(c, Next(c, w, steps[0]), steps[1..]);
    }
  }

  predicate Uninterrupted(steps: seq<WStep>) {
    forall st :: st in steps ==> st.Relay? || (st.Consume? && (st.e.Idle? || st.e.Deliver?))
  }

  /** Once everything has been delivered, and as long as the pending events are deliverable, some run of the relay and
      the consumer alone, without a restart, sends every pending event and delivers every message. */
  lemma CanCatchUp(c: Codec, w: World) returns (steps: seq<WStep>)
    requires Lawful(c) && Drained(w.k) && Deliverable(c, w.db.outbox, w.db.outbox)
    ensures Possible(c, w, steps) && Uninterrupted(steps)
    ensures var w' := After(c, w, steps);
      && Drained(w'.k) && |w'.db.outbox| == |w.db.outbox|
      && forall i :: 0 <= i < |w.db.outbox| && w.db.outbox[i].status.Pending? ==> w'.db.outbox[i].status.Processed?
  {
    var sends := SendRest(c, w, 0);
    var w1 := After(c, w, sends);
    RunOfPipeline(c, w, sends);
    LinkedIsClean(c, w.k.committed, w.db.outbox, w1);
    SendsOnlyProduce(c, w, sends);
    SeenIsTheRun(c, w, sends);
    BuffersAreTheUncommitted(c, w.k, Seen(c, w, sends));
    var es := CanDrainSmoothly(c, w.k.committed, w1.k);
    ConsumingRuns(c, w1, es);
    AfterConcat(c, w, sends, Consuming(es));
    steps := sends + Consuming(es);
  }
}
