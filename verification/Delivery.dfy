/**
 What every run of the consumer guarantees: at-least-once delivery over failed inserts, lost commits
 and crashes, rows that stand for messages and nothing else, and buffers that hold exactly the
 messages between the committed offset and the position.
 */
module Delivery {
  import opened Wrappers
  import opened Payloads
  import opened Consumer
  import opened RowColumns

  /** The message needs no row, or has it. */
  ghost predicate Stored(c: Codec, s: State, p: Partition, o: nat)
    requires o < |Log(s, p)|
  {
    var r := RowOf(c, p, Log(s, p)[o]);
    r.Some? ==> r.value in s.rows
  }

  ghost predicate Held(s: State, p: Partition, o: nat) {
    exists e :: e in Buffer(s, p.topic) && e.part == p && e.offset == o
  }

  ghost predicate EntryOk(c: Codec, base: map<Partition, nat>, s: State, t: Topic, e: Entry) {
    && e.part.topic == t
    && At(base, e.part) <= e.offset < At(s.position, e.part) <= |Log(s, e.part)|
    && Read(c, t, Log(s, e.part)[e.offset]) == Accepted(e.val)
  }

  ghost predicate OffsetsOk(s: State) {
    forall p :: At(s.committed, p) <= At(s.position, p) <= |Log(s, p)|
  }

  ghost predicate BuffersOk(c: Codec, base: map<Partition, nat>, s: State) {
    forall t, e :: e in Buffer(s, t) ==> EntryOk(c, base, s, t, e)
  }

  /** Every message polled since `base` is stored or still held in a buffer. */
  ghost predicate Covered(c: Codec, base: map<Partition, nat>, s: State)
    requires OffsetsOk(s)
  {
    forall p, o: nat :: At(base, p) <= o < At(s.position, p) ==> Stored(c, s, p, o) || Held(s, p, o)
  }

  /** What holds in every run, whatever the messages. */
  ghost predicate Sound(c: Codec, base: map<Partition, nat>, s: State) {
    && OffsetsOk(s)
    && (forall p :: At(base, p) <= At(s.committed, p))
    && BuffersOk(c, base, s)
  }

  ghost predicate Inv(c: Codec, base: map<Partition, nat>, s: State) {
    Sound(c, base, s) && Covered(c, base, s)
  }

  /** At-least-once: every message since `base` and below the committed offset has its row. */
  ghost predicate Durable(c: Codec, base: map<Partition, nat>, s: State)
    requires OffsetsOk(s)
  {
    forall p, o: nat :: At(base, p) <= o < At(s.committed, p) ==> Stored(c, s, p, o)
  }

  /** Every message since `base` decodes, validates and prepares. */
  ghost predicate Clean(c: Codec, base: map<Partition, nat>, s: State) {
    forall p, o: nat :: At(base, p) <= o < |Log(s, p)| ==> RowOf(c, p, Log(s, p)[o]).Some?
  }

  /** A process that has just started. */
  ghost predicate Fresh(s: State) {
    && s.txBuffer == [] && s.activityBuffer == []
    && forall p :: At(s.position, p) == At(s.committed, p) <= |Log(s, p)|
  }

  /** No message below the committed offset depends on a buffer. */
  ghost predicate NoneAtRisk(c: Codec, base: map<Partition, nat>, s: State)
    requires OffsetsOk(s)
  {
    forall p, o: nat :: At(base, p) <= o < At(s.committed, p) && Held(s, p, o) ==> Stored(c, s, p, o)
  }

  // -- a flush

  lemma PrepareAllRows(c: Codec, base: map<Partition, nat>, s: State, t: Topic)
    requires BuffersOk(c, base, s) && PrepareAll(c, t, Buffer(s, t)).Some?
    ensures forall e :: e in Buffer(s, t) ==>
      var r := RowOf(c, e.part, Log(s, e.part)[e.offset]);
      r.Some? && r.value in PrepareAll(c, t, Buffer(s, t)).value
    ensures forall r :: r in PrepareAll(c, t, Buffer(s, t)).value ==>
      exists e :: e in Buffer(s, t) && RowOf(c, e.part, Log(s, e.part)[e.offset]) == Some(r)
  {
    var rows := PrepareAll(c, t, Buffer(s, t)).value;
    forall e | e in Buffer(s, t)
      ensures RowOf(c, e.part, Log(s, e.part)[e.offset]).Some?
      ensures RowOf(c, e.part, Log(s, e.part)[e.offset]).value in rows
    {
      var i :| 0 <= i < |Buffer(s, t)| && Buffer(s, t)[i] == e;
      assert EntryOk(c, base, s, t, e);
      assert rows[i] == Prepare(c, t, e.val).value;
    }
    forall r | r in rows
      ensures exists e :: e in Buffer(s, t) && RowOf(c, e.part, Log(s, e.part)[e.offset]) == Some(r)
    {
      var i :| 0 <= i < |rows| && rows[i] == r;
      var e := Buffer(s, t)[i];
      assert e in Buffer(s, t);
      assert EntryOk(c, base, s, t, e);
      assert RowOf(c, e.part, Log(s, e.part)[e.offset]) == Some(r);
    }
  }

  /** A flush only adds rows, and it empties the buffers only when every buffered row is among them. */
  lemma FlushShape(c: Codec, base: map<Partition, nat>, s: State, env: Env)
    requires BuffersOk(c, base, s)
    ensures var s' := FlushAll(c, s, env).0;
      && s'.log == s.log && s'.position == s.position && s.rows <= s'.rows
      && (|| (s'.txBuffer == s.txBuffer && s'.activityBuffer == s.activityBuffer && s'.committed == s.committed)
          || (&& s'.txBuffer == [] && s'.activityBuffer == []
              && s'.committed == (if env.commitLands then s.position else s.committed)
              && forall t, e :: e in Buffer(s, t) ==> Stored(c, s', e.part, e.offset)))
  {
    var s' := FlushAll(c, s, env).0;
    if && PrepareAll(c, Transactions, Buffer(s, Transactions)).Some?
       && PrepareAll(c, Activity, Buffer(s, Activity)).Some?
    {
      PrepareAllRows(c, base, s, Transactions);
      PrepareAllRows(c, base, s, Activity);
      assert forall p :: Log(s', p) == Log(s, p);
      if s'.txBuffer != s.txBuffer || s'.activityBuffer != s.activityBuffer {
        forall t, e | e in Buffer(s, t)
          ensures Stored(c, s', e.part, e.offset)
        {
          assert EntryOk(c, base, s, t, e);
          var r := RowOf(c, e.part, Log(s, e.part)[e.offset]).value;
          assert r in PrepareAll(c, t, Buffer(s, t)).value;
        }
      }
    }
  }

  lemma MoreRowsKeepInv(c: Codec, base: map<Partition, nat>, s: State, s': State)
    requires Inv(c, base, s)
    requires s'.log == s.log && s'.position == s.position && s'.committed == s.committed && s.rows <= s'.rows
    requires s'.txBuffer == s.txBuffer && s'.activityBuffer == s.activityBuffer
    ensures Inv(c, base, s')
  {
    assert forall p :: Log(s', p) == Log(s, p);
    assert forall t :: Buffer(s', t) == Buffer(s, t);
    assert forall t, e :: e in Buffer(s', t) ==> EntryOk(c, base, s, t, e) && EntryOk(c, base, s', t, e);
    forall p, o: nat | At(base, p) <= o < At(s'.position, p)
      ensures Stored(c, s', p, o) || Held(s', p, o)
    {
      assert Stored(c, s, p, o) || Held(s, p, o);
    }
  }

  lemma FlushKeepsInv(c: Codec, base: map<Partition, nat>, s: State, env: Env)
    requires Inv(c, base, s)
    ensures Inv(c, base, FlushAll(c, s, env).0)
  {
    var s' := FlushAll(c, s, env).0;
    FlushShape(c, base, s, env);
    if s'.txBuffer == s.txBuffer && s'.activityBuffer == s.activityBuffer && s'.committed == s.committed {
      MoreRowsKeepInv(c, base, s, s');
    } else {
      assert forall p :: Log(s', p) == Log(s, p);
      assert forall t :: Buffer(s', t) == [];
      forall p, o: nat | At(base, p) <= o < At(s'.position, p)
        ensures Stored(c, s', p, o)
      {
        assert Stored(c, s, p, o) || Held(s, p, o);
      }
    }
  }

  lemma FlushNeverRaises(c: Codec, base: map<Partition, nat>, s: State, env: Env)
    requires Sound(c, base, s) && Clean(c, base, s)
    ensures !FlushAll(c, s, env).1
  {
    forall t, i | 0 <= i < |Buffer(s, t)|
      ensures Prepare(c, t, Buffer(s, t)[i].val).Some?
    {
      assert EntryOk(c, base, s, t, Buffer(s, t)[i]);
    }
    assert PrepareAll(c, Transactions, Buffer(s, Transactions)).Some?;
    assert PrepareAll(c, Activity, Buffer(s, Activity)).Some?;
  }

  /** A flush commits only what it has stored. */
  lemma FlushKeepsDurable(c: Codec, base: map<Partition, nat>, s: State, env: Env)
    requires Inv(c, base, s) && Durable(c, base, s)
    ensures Inv(c, base, FlushAll(c, s, env).0) && Durable(c, base, FlushAll(c, s, env).0)
  {
    FlushKeepsInv(c, base, s, env);
    FlushShape(c, base, s, env);
    var s' := FlushAll(c, s, env).0;
    forall p, o: nat | At(base, p) <= o < At(s'.committed, p)
      ensures Stored(c, s', p, o)
    {
      assert Log(s', p) == Log(s, p);
      if o < At(s.committed, p) {
        assert Stored(c, s, p, o);
      } else {
        assert Stored(c, s', p, o) || Held(s', p, o);
      }
    }
  }

  // -- one step

  lemma RestartKeepsInv(c: Codec, base: map<Partition, nat>, s: State, now: int)
    requires Inv(c, base, s)
    ensures Inv(c, base, Restart(s, now)) <==> Durable(c, base, s)
    ensures Durable(c, base, s) ==> Durable(c, base, Restart(s, now))
    ensures Durable(c, base, s) <==> NoneAtRisk(c, base, s)
  {
    var s' := Restart(s, now);
    assert forall p :: Log(s', p) == Log(s, p);
    assert forall t :: Buffer(s', t) == [];
    assert forall p, o: nat :: o < |Log(s, p)| ==> (Stored(c, s, p, o) <==> Stored(c, s', p, o));
    assert forall p, o :: !Held(s', p, o);
    if Inv(c, base, s') {
      forall p, o: nat | At(base, p) <= o < At(s.committed, p)
        ensures Stored(c, s, p, o)
      {
        assert Stored(c, s', p, o) || Held(s', p, o);
      }
    }
    if NoneAtRisk(c, base, s) {
      forall p, o: nat | At(base, p) <= o < At(s.committed, p)
        ensures Stored(c, s, p, o)
      {
        assert Stored(c, s, p, o) || Held(s, p, o);
      }
    }
  }

  lemma ProduceKeepsInv(c: Codec, base: map<Partition, nat>, s: State, p: Partition, m: Message)
    requires Inv(c, base, s)
    ensures var s' := Step(c, s, Produce(p, m));
            Inv(c, base, s') && (Durable(c, base, s) ==> Durable(c, base, s'))
  {
    var s' := Step(c, s, Produce(p, m));
    assert forall q :: Log(s, q) <= Log(s', q);
    assert forall t :: Buffer(s', t) == Buffer(s, t);
    forall t, e | e in Buffer(s', t)
      ensures EntryOk(c, base, s', t, e)
    {
      assert EntryOk(c, base, s, t, e);
    }
    assert forall q, o: nat :: o < |Log(s, q)| ==> (Stored(c, s, q, o) <==> Stored(c, s', q, o));
    assert forall q, o :: Held(s, q, o) <==> Held(s', q, o);
    forall q, o: nat | At(base, q) <= o < At(s'.position, q)
      ensures Stored(c, s', q, o) || Held(s', q, o)
    {
      assert Stored(c, s, q, o) || Held(s, q, o);
    }
  }

  /** Polling the next message of a partition and, if it is acceptable, buffering it. */
  function Take(c: Codec, s: State, p: Partition): State
    requires At(s.position, p) < |Log(s, p)|
  {
    var o := At(s.position, p);
    var s1 := s.(position := s.position[p := o + 1]);
    match Read(c, p.topic, Log(s, p)[o])
    case Raises => s1
    case Malformed(val) => s1.(malformed := s1.malformed + [Entry(p, o, val)])
    case Accepted(val) => Push(s1, p, Entry(p, o, val))
  }

  lemma TakeBuffers(c: Codec, s: State, p: Partition)
    requires At(s.position, p) < |Log(s, p)|
    ensures var o := At(s.position, p);
            var r := Read(c, p.topic, Log(s, p)[o]);
            var s' := Take(c, s, p);
            forall t :: Buffer(s', t) ==
              if r.Accepted? && t == p.topic then Buffer(s, t) + [Entry(p, o, r.val)] else Buffer(s, t)
    ensures forall q :: Log(Take(c, s, p), q) == Log(s, q)
    ensures forall q :: At(Take(c, s, p).position, q) == if q == p then At(s.position, p) + 1 else At(s.position, q)
    ensures Take(c, s, p).rows == s.rows && Take(c, s, p).committed == s.committed
  {
  }

  lemma TakeKeepsBuffersOk(c: Codec, base: map<Partition, nat>, s: State, s': State, p: Partition)
    requires Sound(c, base, s) && At(s.position, p) < |Log(s, p)| && s' == Take(c, s, p)
    ensures BuffersOk(c, base, s')
  {
    TakeBuffers(c, s, p);
    forall t, e | e in Buffer(s', t)
      ensures EntryOk(c, base, s', t, e)
    {
      if e in Buffer(s, t) {
        assert EntryOk(c, base, s, t, e);
      } else {
        assert e == Entry(p, At(s.position, p), e.val);
      }
    }
  }

  lemma TakeKeepsCovered(c: Codec, base: map<Partition, nat>, s: State, s': State, p: Partition, q: Partition, i: nat)
    requires Inv(c, base, s) && At(s.position, p) < |Log(s, p)| && s' == Take(c, s, p)
    requires At(base, q) <= i < At(s'.position, q) <= |Log(s', q)|
    ensures Stored(c, s', q, i) || Held(s', q, i)
  {
    TakeBuffers(c, s, p);
    if q == p && i == At(s.position, p) {
      var r := Read(c, p.topic, Log(s, p)[i]);
      if r.Accepted? {
        assert Entry(p, i, r.val) in Buffer(s', p.topic);
      }
    } else if !Stored(c, s, q, i) {
      assert Held(s, q, i);
      var e :| e in Buffer(s, q.topic) && e.part == q && e.offset == i;
      assert e in Buffer(s', q.topic);
    }
  }

  lemma TakeKeepsInv(c: Codec, base: map<Partition, nat>, s: State, p: Partition)
    requires Inv(c, base, s) && At(s.position, p) < |Log(s, p)|
    ensures Inv(c, base, Take(c, s, p))
    ensures Durable(c, base, s) ==> Durable(c, base, Take(c, s, p))
  {
    var s' := Take(c, s, p);
    TakeKeepsBuffersOk(c, base, s, s', p);
    TakeBuffers(c, s, p);
    forall q, i: nat | At(base, q) <= i < At(s'.position, q)
      ensures Stored(c, s', q, i) || Held(s', q, i)
    {
      TakeKeepsCovered(c, base, s, s', p, q, i);
    }
    assert forall q, i: nat :: i < |Log(s, q)| ==> (Stored(c, s, q, i) <==> Stored(c, s', q, i));
  }

  lemma CommitKeepsInv(c: Codec, base: map<Partition, nat>, s: State, env: Env)
    requires Inv(c, base, s)
    ensures Inv(c, base, Commit(s, env))
  {
    var s' := Commit(s, env);
    assert forall p :: Log(s', p) == Log(s, p);
    assert forall t :: Buffer(s', t) == Buffer(s, t);
    assert forall t, e :: e in Buffer(s', t) ==> EntryOk(c, base, s, t, e) && EntryOk(c, base, s', t, e);
    forall p, o: nat | At(base, p) <= o < At(s'.position, p)
      ensures Stored(c, s', p, o) || Held(s', p, o)
    {
      assert Stored(c, s, p, o) || Held(s, p, o);
    }
  }

  lemma FlushKeepsPlace(c: Codec, s: State, env: Env)
    ensures FlushAll(c, s, env).0.log == s.log && FlushAll(c, s, env).0.position == s.position
  {
  }

  lemma HandleKeepsPlace(c: Codec, s: State, p: Partition, env: Env)
    ensures var s' := Handle(c, s, p, env);
      && s'.log == s.log
      && s'.position == if At(s.position, p) < |Log(s, p)| then s.position[p := At(s.position, p) + 1] else s.position
  {
    if At(s.position, p) < |Log(s, p)| {
      FlushKeepsPlace(c, Take(c, s, p), env);
    }
  }

  lemma StepExtendsLog(c: Codec, s: State, e: Event, p: Partition)
    ensures Log(s, p) <= Log(Step(c, s, e), p)
  {
    match e
    case Produce(_, _) =>
    case Idle(env) =>
      FlushKeepsPlace(c, s, env);
      FlushKeepsPlace(c, FlushAll(c, s, env).0, env);
    case BrokerError =>
    case Deliver(q, env) => HandleKeepsPlace(c, s, q, env);
    case Shutdown(env) => FlushKeepsPlace(c, s, env);
    case Crash(_) =>
  }

  lemma {:induction false} RunExtendsLog(c: Codec, s: State, es: seq<Event>, p: Partition)
    ensures Log(s, p) <= Log(Run(c, s, es), p)
    decreases |es|
  {
    if es != [] {
      StepExtendsLog(c, s, es[0], p);
      RunExtendsLog(c, Step(c, s, es[0]), es[1..], p);
    }
  }

  // -- the commits that can lose a message

  /** The state in which handling a message commits outside a successful flush, if it does: after a message
      that raises or lacks fields, and after a full batch whose flush raised. */
  function CommitPoint(c: Codec, s: State, e: Event): Option<State> {
    match e
    case Deliver(p, env) =>
      if At(s.position, p) >= |Log(s, p)| then None
      else
        var s1 := Take(c, s, p);
        if !Read(c, p.topic, Log(s, p)[At(s.position, p)]).Accepted? then Some(s1)
        else if |s1.txBuffer| + |s1.activityBuffer| >= BATCH_SIZE && FlushAll(c, s1, env).1
        then Some(FlushAll(c, s1, env).0)
        else None
    case _ => None
  }

  /** A buffered value whose row ClickHouse does not have. */
  predicate WithoutRow(c: Codec, s: State, t: Topic, e: Entry) {
    var r := Prepare(c, t, e.val);
    r.Some? && r.value !in s.rows
  }

  ghost predicate Unsaved(c: Codec, s: State) {
    exists t, e :: e in Buffer(s, t) && WithoutRow(c, s, t, e)
  }

  /** A commit outside a successful flush, while a buffered value has no row. */
  ghost predicate LosingCommit(c: Codec, s: State, e: Event) {
    CommitPoint(c, s, e).Some? && e.env.commitLands && Unsaved(c, CommitPoint(c, s, e).value)
  }

  lemma HandleByCommitPoint(c: Codec, s: State, p: Partition, env: Env)
    requires At(s.position, p) < |Log(s, p)|
    ensures var s1 := Take(c, s, p);
      var s' := Handle(c, s, p, env);
      match CommitPoint(c, s, Deliver(p, env))
      case Some(at) => s' == Commit(at, env) && at in {s1, FlushAll(c, s1, env).0}
      case None => s' in {s1, FlushAll(c, s1, env).0}
  {
  }

  /** With no buffered value without a row, every message read is stored. */
  lemma ReadIsStored(c: Codec, base: map<Partition, nat>, s: State, p: Partition, o: nat)
    requires Inv(c, base, s) && !Unsaved(c, s)
    requires At(base, p) <= o < At(s.position, p)
    ensures o < |Log(s, p)| && Stored(c, s, p, o)
  {
    assert Stored(c, s, p, o) || Held(s, p, o);
    if Held(s, p, o) {
      var e :| e in Buffer(s, p.topic) && e.part == p && e.offset == o;
      assert EntryOk(c, base, s, p.topic, e) && !WithoutRow(c, s, p.topic, e);
    }
  }

  /** An entry without a row stands for a message that was read and is not stored. */
  lemma EntryNotStored(c: Codec, base: map<Partition, nat>, s: State, t: Topic, e: Entry)
    requires Inv(c, base, s) && e in Buffer(s, t) && WithoutRow(c, s, t, e)
    ensures At(base, e.part) <= e.offset < At(s.position, e.part) && e.offset < |Log(s, e.part)|
    ensures !Stored(c, s, e.part, e.offset)
  {
    assert EntryOk(c, base, s, t, e);
  }

  lemma CommitDurableExactly(c: Codec, base: map<Partition, nat>, s: State, env: Env)
    requires Inv(c, base, s) && Durable(c, base, s)
    ensures Inv(c, base, Commit(s, env))
    ensures Durable(c, base, Commit(s, env)) <==> !(env.commitLands && Unsaved(c, s))
  {
    CommitKeepsInv(c, base, s, env);
    if env.commitLands {
      var s' := Commit(s, env);
      assert s' == s.(committed := s.position);
      assert forall p, o: nat :: o < |Log(s, p)| ==> (Stored(c, s', p, o) <==> Stored(c, s, p, o));
      if Unsaved(c, s) {
        var t, e :| e in Buffer(s, t) && WithoutRow(c, s, t, e);
        EntryNotStored(c, base, s, t, e);
      } else {
        forall p, o: nat | At(base, p) <= o < At(s'.committed, p)
          ensures Stored(c, s', p, o)
        {
          ReadIsStored(c, base, s, p, o);
        }
      }
    }
  }

  lemma HandleDurableExactly(c: Codec, base: map<Partition, nat>, s: State, p: Partition, env: Env)
    requires Inv(c, base, s) && Durable(c, base, s)
    ensures Inv(c, base, Handle(c, s, p, env))
    ensures Durable(c, base, Handle(c, s, p, env)) <==> !LosingCommit(c, s, Deliver(p, env))
  {
    if At(s.position, p) < |Log(s, p)| {
      var s1 := Take(c, s, p);
      TakeKeepsInv(c, base, s, p);
      FlushKeepsDurable(c, base, s1, env);
      HandleByCommitPoint(c, s, p, env);
      match CommitPoint(c, s, Deliver(p, env))
      case None =>
      case Some(at) => CommitDurableExactly(c, base, at, env);
    }
  }

  /** Exactly when a step commits a message that is not stored: when it is a commit outside a successful flush while
      a buffered value has no row.  No other step, restarts included, does. */
  lemma StepDurableExactly(c: Codec, base: map<Partition, nat>, s: State, e: Event)
    requires Inv(c, base, s) && Durable(c, base, s)
    ensures Inv(c, base, Step(c, s, e))
    ensures Durable(c, base, Step(c, s, e)) <==> !LosingCommit(c, s, e)
  {
    match e
    case Produce(p, m) => ProduceKeepsInv(c, base, s, p, m);
    case Idle(env) =>
      FlushKeepsDurable(c, base, s, env);
      var s1 := FlushAll(c, s, env).0;
      FlushKeepsDurable(c, base, s1, env);
      RestartKeepsInv(c, base, FlushAll(c, s1, env).0, env.now);
    case BrokerError =>
    case Deliver(p, env) => HandleDurableExactly(c, base, s, p, env);
    case Shutdown(env) =>
      FlushKeepsDurable(c, base, s, env);
      RestartKeepsInv(c, base, FlushAll(c, s, env).0, env.now);
    case Crash(now) => RestartKeepsInv(c, base, s, now);
  }

  /** No step of the run is a losing commit. */
  ghost predicate NeverLoses(c: Codec, s: State, es: seq<Event>)
    decreases |es|
  {
    es == [] || (!LosingCommit(c, s, es[0]) && NeverLoses(c, Step(c, s, es[0]), es[1..]))
  }

  /** At every point of the run what is committed is stored. */
  ghost predicate DurableThroughout(c: Codec, base: map<Partition, nat>, s: State, es: seq<Event>)
    decreases |es|
  {
    && OffsetsOk(s) && Durable(c, base, s)
    && (es == [] || DurableThroughout(c, base, Step(c, s, es[0]), es[1..]))
  }

  lemma {:induction false} ThroughoutExactly(c: Codec, base: map<Partition, nat>, s: State, es: seq<Event>)
    requires Inv(c, base, s) && Durable(c, base, s)
    ensures DurableThroughout(c, base, s, es) <==> NeverLoses(c, s, es)
    decreases |es|
  {
    if es != [] {
      var s1 := Step(c, s, es[0]);
      StepDurableExactly(c, base, s, es[0]);
      if Durable(c, base, s1) {
        ThroughoutExactly(c, base, s1, es[1..]);
      }
    }
  }

  /** Over any messages and failures: what is committed is stored at every point of a run if and only if no step of
      it is a losing commit. */
  lemma DeliveryExactly(c: Codec, s: State, es: seq<Event>)
    requires Fresh(s)
    ensures DurableThroughout(c, s.committed, s, es) <==> NeverLoses(c, s, es)
  {
    FreshInv(c, s);
    ThroughoutExactly(c, s.committed, s, es);
  }

  // -- runs over deliverable messages

  /** Where every message decodes, validates and prepares there is no losing commit. */
  lemma CleanNeverLoses(c: Codec, base: map<Partition, nat>, s: State, e: Event)
    requires Inv(c, base, s) && Durable(c, base, s) && Clean(c, base, s)
    ensures CommitPoint(c, s, e).None?
  {
    if e.Deliver? && At(s.position, e.p) < |Log(s, e.p)| {
      assert RowOf(c, e.p, Log(s, e.p)[At(s.position, e.p)]).Some?;
      var s1 := Take(c, s, e.p);
      TakeKeepsInv(c, base, s, e.p);
      TakeBuffers(c, s, e.p);
      assert Clean(c, base, s1);
      FlushNeverRaises(c, base, s1, e.env);
    }
  }

  lemma StepKeepsDurable(c: Codec, base: map<Partition, nat>, s: State, e: Event)
    requires Inv(c, base, s) && Durable(c, base, s) && Clean(c, base, Step(c, s, e))
    ensures Inv(c, base, Step(c, s, e)) && Durable(c, base, Step(c, s, e))
  {
    assert Clean(c, base, s) by {
      forall p, o: nat | At(base, p) <= o < |Log(s, p)|
        ensures RowOf(c, p, Log(s, p)[o]).Some?
      {
        StepExtendsLog(c, s, e, p);
        assert Log(s, p)[o] == Log(Step(c, s, e), p)[o];
      }
    }
    CleanNeverLoses(c, base, s, e);
    StepDurableExactly(c, base, s, e);
  }

  lemma CleanBackwards(c: Codec, base: map<Partition, nat>, s: State, es: seq<Event>)
    requires Clean(c, base, Run(c, s, es))
    ensures Clean(c, base, s)
  {
    forall p, o: nat | At(base, p) <= o < |Log(s, p)|
      ensures RowOf(c, p, Log(s, p)[o]).Some?
    {
      RunExtendsLog(c, s, es, p);
      assert Log(s, p)[o] == Log(Run(c, s, es), p)[o];
    }
  }

  lemma {:induction false} RunKeepsDurable(c: Codec, base: map<Partition, nat>, s: State, es: seq<Event>)
    requires Inv(c, base, s) && Durable(c, base, s) && Clean(c, base, Run(c, s, es))
    ensures Inv(c, base, Run(c, s, es)) && Durable(c, base, Run(c, s, es))
    decreases |es|
  {
    if es != [] {
      var s1 := Step(c, s, es[0]);
      CleanBackwards(c, base, s1, es[1..]);
      StepKeepsDurable(c, base, s, es[0]);
      RunKeepsDurable(c, base, s1, es[1..]);
    }
  }

  lemma FreshInv(c: Codec, s: State)
    requires Fresh(s)
    ensures Inv(c, s.committed, s) && Durable(c, s.committed, s)
  {
    assert forall t :: Buffer(s, t) == [];
  }

  /** ClickHouse has a row that tells the message, column by column. */
  ghost predicate Told(c: Codec, s: State, p: Partition, o: nat) {
    o < |Log(s, p)| && exists r :: r in s.rows && TellsMessage(c, p, Log(s, p)[o], r)
  }

  /** At-least-once delivery.  Whatever inserts fail, commits get lost and processes crash or stop:
      if every message that arrives after a start decodes, validates and prepares, then every such
      message below the committed offset has its row, and every one polled is stored or buffered. */
  lemma AtLeastOnce(c: Codec, s: State, es: seq<Event>)
    requires Fresh(s) && Clean(c, s.committed, Run(c, s, es))
    ensures Inv(c, s.committed, Run(c, s, es)) && Durable(c, s.committed, Run(c, s, es))
    ensures var s' := Run(c, s, es);
      forall p, o: nat :: At(s.committed, p) <= o < At(s'.committed, p) ==> Told(c, s', p, o)
  {
    FreshInv(c, s);
    RunKeepsDurable(c, s.committed, s, es);
    var s' := Run(c, s, es);
    forall p, o: nat | At(s.committed, p) <= o < At(s'.committed, p)
      ensures Told(c, s', p, o)
    {
      assert Stored(c, s', p, o) && RowOf(c, p, Log(s', p)[o]).Some?;
      MessageTold(c, p, Log(s', p)[o]);
    }
  }

  // -- runs over any messages

  lemma SameBuffersSound(c: Codec, base: map<Partition, nat>, s: State, s': State)
    requires Sound(c, base, s) && s'.log == s.log && s'.position == s.position
    requires forall p :: At(s.committed, p) <= At(s'.committed, p) <= At(s.position, p)
    requires forall t, e :: e in Buffer(s', t) ==> e in Buffer(s, t)
    ensures Sound(c, base, s')
  {
    assert forall p :: Log(s', p) == Log(s, p);
    forall t, e | e in Buffer(s', t)
      ensures EntryOk(c, base, s', t, e)
    {
      assert EntryOk(c, base, s, t, e);
    }
  }

  lemma FlushKeepsSound(c: Codec, base: map<Partition, nat>, s: State, env: Env)
    requires Sound(c, base, s)
    ensures Sound(c, base, FlushAll(c, s, env).0)
  {
    FlushShape(c, base, s, env);
    SameBuffersSound(c, base, s, FlushAll(c, s, env).0);
  }

  lemma RestartKeepsSound(c: Codec, base: map<Partition, nat>, s: State, now: int)
    requires Sound(c, base, s)
    ensures Sound(c, base, Restart(s, now))
  {
    var s' := Restart(s, now);
    assert forall p :: Log(s', p) == Log(s, p);
    assert forall t :: Buffer(s', t) == [];
  }

  lemma ProduceKeepsSound(c: Codec, base: map<Partition, nat>, s: State, p: Partition, m: Message)
    requires Sound(c, base, s)
    ensures Sound(c, base, Step(c, s, Produce(p, m)))
  {
    var s' := Step(c, s, Produce(p, m));
    assert forall q :: Log(s, q) <= Log(s', q);
    forall t, x | x in Buffer(s', t)
      ensures EntryOk(c, base, s', t, x)
    {
      assert x in Buffer(s, t) && EntryOk(c, base, s, t, x);
    }
  }

  lemma TakeKeepsSound(c: Codec, base: map<Partition, nat>, s: State, p: Partition)
    requires Sound(c, base, s) && At(s.position, p) < |Log(s, p)|
    ensures Sound(c, base, Take(c, s, p))
  {
    TakeBuffers(c, s, p);
    TakeKeepsBuffersOk(c, base, s, Take(c, s, p), p);
  }

  lemma HandleKeepsSound(c: Codec, base: map<Partition, nat>, s: State, p: Partition, env: Env)
    requires Sound(c, base, s)
    ensures Sound(c, base, Handle(c, s, p, env))
  {
    if At(s.position, p) < |Log(s, p)| {
      var s2 := Take(c, s, p);
      TakeKeepsSound(c, base, s, p);
      if Read(c, p.topic, Log(s, p)[At(s.position, p)]).Accepted? {
        FlushKeepsSound(c, base, s2, env);
        var s3 := FlushAll(c, s2, env).0;
        SameBuffersSound(c, base, s3, Commit(s3, env));
      } else {
        SameBuffersSound(c, base, s2, Commit(s2, env));
      }
    }
  }

  lemma StepKeepsSound(c: Codec, base: map<Partition, nat>, s: State, e: Event)
    requires Sound(c, base, s)
    ensures Sound(c, base, Step(c, s, e))
  {
    match e
    case Produce(p, m) => ProduceKeepsSound(c, base, s, p, m);
    case Idle(env) =>
      var s1 := FlushAll(c, s, env).0;
      FlushKeepsSound(c, base, s, env);
      FlushKeepsSound(c, base, s1, env);
      RestartKeepsSound(c, base, FlushAll(c, s1, env).0, env.now);
    case BrokerError =>
    case Deliver(p, env) => HandleKeepsSound(c, base, s, p, env);
    case Shutdown(env) =>
      FlushKeepsSound(c, base, s, env);
      RestartKeepsSound(c, base, FlushAll(c, s, env).0, env.now);
    case Crash(now) => RestartKeepsSound(c, base, s, now);
  }

  /** The state in which an event loses the process's memory, if it does. */
  function BeforeRestart(c: Codec, s: State, e: Event): Option<State> {
    match e
    case Crash(_) => Some(s)
    case Shutdown(env) => Some(FlushAll(c, s, env).0)
    case Idle(env) =>
      if env.now - s.lastFlush >= FLUSH_INTERVAL && FlushAll(c, s, env).1
      then Some(FlushAll(c, FlushAll(c, s, env).0, env).0)
      else None
    case _ => None
  }

  lemma HandleKeepsInv(c: Codec, base: map<Partition, nat>, s: State, p: Partition, env: Env)
    requires Inv(c, base, s)
    ensures Inv(c, base, Handle(c, s, p, env))
  {
    if At(s.position, p) < |Log(s, p)| {
      var s1 := Take(c, s, p);
      TakeKeepsInv(c, base, s, p);
      FlushKeepsInv(c, base, s1, env);
      HandleByCommitPoint(c, s, p, env);
      match CommitPoint(c, s, Deliver(p, env))
      case None =>
      case Some(at) => CommitKeepsInv(c, base, at, env);
    }
  }

  /** An idle poll whose flush raised: the cleanup flushes once more, then the process starts again. */
  lemma TwoFlushesThenRestart(c: Codec, base: map<Partition, nat>, s: State, env: Env)
    requires Inv(c, base, s)
    ensures var before := FlushAll(c, FlushAll(c, s, env).0, env).0;
      OffsetsOk(before) && (Inv(c, base, Restart(before, env.now)) <==> NoneAtRisk(c, base, before))
  {
    FlushKeepsInv(c, base, s, env);
    var s1 := FlushAll(c, s, env).0;
    FlushKeepsInv(c, base, s1, env);
    RestartKeepsInv(c, base, FlushAll(c, s1, env).0, env.now);
  }

  lemma IdleCoverageExactly(c: Codec, base: map<Partition, nat>, s: State, env: Env)
    requires Inv(c, base, s)
    ensures var before := BeforeRestart(c, s, Idle(env));
      && (before.Some? ==> OffsetsOk(before.value))
      && (Inv(c, base, Step(c, s, Idle(env))) <==> (before.Some? ==> NoneAtRisk(c, base, before.value)))
  {
    FlushKeepsInv(c, base, s, env);
    TwoFlushesThenRestart(c, base, s, env);
  }

  /** Exactly when a step loses a message.  Malformed and failing messages commit offsets while the
      buffers are not empty, so delivery rests on the next restart finding nothing at risk: a step keeps
      every polled message stored or buffered if and only if it is not a restart with a message below the
      committed offset that only the buffers hold. */
  lemma StepKeepsCoverageExactly(c: Codec, base: map<Partition, nat>, s: State, e: Event)
    requires Inv(c, base, s)
    ensures BeforeRestart(c, s, e).Some? ==> OffsetsOk(BeforeRestart(c, s, e).value)
    ensures Inv(c, base, Step(c, s, e)) <==>
            (BeforeRestart(c, s, e).Some? ==> NoneAtRisk(c, base, BeforeRestart(c, s, e).value))
  {
    match e
    case Produce(p, m) => ProduceKeepsInv(c, base, s, p, m);
    case Idle(env) => IdleCoverageExactly(c, base, s, env);
    case BrokerError =>
    case Deliver(p, env) => HandleKeepsInv(c, base, s, p, env);
    case Shutdown(env) =>
      FlushKeepsInv(c, base, s, env);
      RestartKeepsInv(c, base, FlushAll(c, s, env).0, env.now);
    case Crash(now) => RestartKeepsInv(c, base, s, now);
  }

  lemma {:induction false} RunKeepsSound(c: Codec, base: map<Partition, nat>, s: State, es: seq<Event>)
    requires Sound(c, base, s)
    ensures Sound(c, base, Run(c, s, es))
    decreases |es|
  {
    if es != [] {
      StepKeepsSound(c, base, s, es[0]);
      RunKeepsSound(c, base, Step(c, s, es[0]), es[1..]);
    }
  }

  /** Reading an acceptable message and then one that is not commits both and inserts neither. */
  lemma BadMessageCommitsBuffer(c: Codec, s: State, p: Partition, m: Message, bad: Message, env: Env)
    requires s.txBuffer == [] && s.activityBuffer == [] && env.commitLands
    requires var o := At(s.position, p);
      |Log(s, p)| == o + 2 && Log(s, p)[o] == m && Log(s, p)[o + 1] == bad
    requires RowOf(c, p, m).Some? && !Read(c, p.topic, bad).Accepted?
    ensures var s' := Handle(c, Handle(c, s, p, env), p, env);
      s'.log == s.log && s'.rows == s.rows && At(s'.committed, p) == At(s.position, p) + 2
  {
    var s1 := Handle(c, s, p, env);
    assert s1.log == s.log && s1.rows == s.rows && At(s1.position, p) == At(s.position, p) + 1;
    assert Log(s1, p) == Log(s, p);
  }

  lemma TwoProduced(c: Codec, s: State, p: Partition, m: Message, bad: Message)
    ensures var s2 := Step(c, Step(c, s, Produce(p, m)), Produce(p, bad));
      s2 == s.(log := s2.log) && Log(s2, p) == Log(s, p) + [m] + [bad]
  {
  }

  lemma Run5(c: Codec, s: State, e1: Event, e2: Event, e3: Event, e4: Event, e5: Event)
    ensures Run(c, s, [e1, e2, e3, e4, e5]) == Step(c, Step(c, Step(c, Step(c, Step(c, s, e1), e2), e3), e4), e5)
  {
    var s1 := Step(c, s, e1);
    var s2 := Step(c, s1, e2);
    var s3 := Step(c, s2, e3);
    var s4 := Step(c, s3, e4);
    var s5 := Step(c, s4, e5);
    calc {
      Run(c, s, [e1, e2, e3, e4, e5]);
      { assert [e1, e2, e3, e4, e5][1..] == [e2, e3, e4, e5]; }
      Run(c, s1, [e2, e3, e4, e5]);
      { assert [e2, e3, e4, e5][1..] == [e3, e4, e5]; }
      Run(c, s2, [e3, e4, e5]);
      { assert [e3, e4, e5][1..] == [e4, e5]; }
      Run(c, s3, [e4, e5]);
      { assert [e4, e5][1..] == [e5]; }
      Run(c, s4, [e5]);
      { assert [e5][1..] == []; }
      s5;
    }
  }

  /** The losing family: any deliverable message, then one that is not accepted, then a crash.  The commit of the
      second message also covers the first, whose row was never inserted. */
  lemma BadMessageLosesBufferedOne(c: Codec, s: State, p: Partition, m: Message, bad: Message, env: Env)
    requires Fresh(s) && s.rows == [] && At(s.committed, p) == |Log(s, p)|
    requires RowOf(c, p, m).Some? && !Read(c, p.topic, bad).Accepted? && env.commitLands
    ensures var es := [Produce(p, m), Produce(p, bad), Deliver(p, env), Deliver(p, env), Crash(env.now)];
      OffsetsOk(Run(c, s, es)) && !Durable(c, s.committed, Run(c, s, es))
  {
    var es := [Produce(p, m), Produce(p, bad), Deliver(p, env), Deliver(p, env), Crash(env.now)];
    FreshInv(c, s);
    RunKeepsSound(c, s.committed, s, es);
    Run5(c, s, es[0], es[1], es[2], es[3], es[4]);
    var s2 := Step(c, Step(c, s, es[0]), es[1]);
    var o := |Log(s, p)|;
    TwoProduced(c, s, p, m, bad);
    BadMessageCommitsBuffer(c, s2, p, m, bad, env);
    var s' := Run(c, s, es);
    assert s'.log == s2.log && s'.rows == [] && At(s'.committed, p) == o + 2;
    assert !Stored(c, s', p, o);
  }

  /** Text that is not JSON and an object without the required fields both belong to the family. */
  lemma MissingFieldsLoseBufferedOne(c: Codec, s: State, p: Partition, m: Message, env: Env)
    requires Fresh(s) && s.rows == [] && At(s.committed, p) == |Log(s, p)|
    requires RowOf(c, p, m).Some? && env.commitLands
    ensures Read(c, p.topic, Garbage).Raises? && Read(c, p.topic, Value(Obj(map[]))).Malformed?
    ensures forall bad :: bad in {Garbage, Value(Obj(map[]))} ==>
      var es := [Produce(p, m), Produce(p, bad), Deliver(p, env), Deliver(p, env), Crash(env.now)];
      OffsetsOk(Run(c, s, es)) && !Durable(c, s.committed, Run(c, s, es))
  {
    var none: map<string, Json> := map[];
    assert "amount" in Required(Transactions) && "category" in Required(Activity);
    assert Decrypt(c, none) == none;
    BadMessageLosesBufferedOne(c, s, p, m, Garbage, env);
    BadMessageLosesBufferedOne(c, s, p, m, Value(Obj(none)), env);
  }

  ghost predicate FromLog(c: Codec, base: map<Partition, nat>, s: State, r: Row) {
    exists p: Partition, o: nat :: At(base, p) <= o < |Log(s, p)| && RowOf(c, p, Log(s, p)[o]) == Some(r)
  }

  /** Every row inserted since `old` stands for a message of the log. */
  ghost predicate NoJunk(c: Codec, base: map<Partition, nat>, had: seq<Row>, s: State) {
    forall r :: r in s.rows ==> r in had || FromLog(c, base, s, r)
  }

  lemma FlushNoJunk(c: Codec, base: map<Partition, nat>, had: seq<Row>, s: State, env: Env)
    requires Sound(c, base, s) && NoJunk(c, base, had, s)
    ensures NoJunk(c, base, had, FlushAll(c, s, env).0)
  {
    var s' := FlushAll(c, s, env).0;
    FlushShape(c, base, s, env);
    assert forall p :: Log(s', p) == Log(s, p);
    forall r | r in s'.rows
      ensures r in had || FromLog(c, base, s', r)
    {
      if r in s.rows {
        assert r in had || FromLog(c, base, s, r);
      } else {
        var t := if PrepareAll(c, Transactions, s.txBuffer).Some? && r in PrepareAll(c, Transactions, s.txBuffer).value
                 then Transactions else Activity;
        PrepareAllRows(c, base, s, t);
        var e :| e in Buffer(s, t) && RowOf(c, e.part, Log(s, e.part)[e.offset]) == Some(r);
        assert EntryOk(c, base, s, t, e);
      }
    }
  }

  lemma HandleNoJunk(c: Codec, base: map<Partition, nat>, had: seq<Row>, s: State, p: Partition, env: Env)
    requires Sound(c, base, s) && NoJunk(c, base, had, s)
    ensures NoJunk(c, base, had, Handle(c, s, p, env))
  {
    if At(s.position, p) < |Log(s, p)| {
      var s2 := Take(c, s, p);
      TakeKeepsSound(c, base, s, p);
      TakeBuffers(c, s, p);
      SameRowsNoJunk(c, base, had, s, s2);
      FlushNoJunk(c, base, had, s2, env);
      var s' := Handle(c, s, p, env);
      var s3 := FlushAll(c, s2, env).0;
      assert s2.log == s.log;
      if s'.rows == s.rows {
        SameRowsNoJunk(c, base, had, s, s');
      } else {
        SameRowsNoJunk(c, base, had, s3, s');
      }
    }
  }

  lemma SameRowsNoJunk(c: Codec, base: map<Partition, nat>, had: seq<Row>, s: State, s': State)
    requires NoJunk(c, base, had, s) && s'.rows == s.rows && forall p :: Log(s, p) <= Log(s', p)
    ensures NoJunk(c, base, had, s')
  {
    forall r | r in s'.rows && r !in had
      ensures FromLog(c, base, s', r)
    {
      assert FromLog(c, base, s, r);
      var p: Partition, o: nat :| At(base, p) <= o < |Log(s, p)| && RowOf(c, p, Log(s, p)[o]) == Some(r);
      assert Log(s', p)[o] == Log(s, p)[o];
    }
  }

  lemma StepNoJunk(c: Codec, base: map<Partition, nat>, had: seq<Row>, s: State, e: Event)
    requires Sound(c, base, s) && NoJunk(c, base, had, s)
    ensures NoJunk(c, base, had, Step(c, s, e))
  {
    var s' := Step(c, s, e);
    match e
    case Produce(p, m) => SameRowsNoJunk(c, base, had, s, s');
    case Idle(env) =>
      FlushNoJunk(c, base, had, s, env);
      var s1 := FlushAll(c, s, env).0;
      FlushKeepsSound(c, base, s, env);
      FlushNoJunk(c, base, had, s1, env);
      SameRowsNoJunk(c, base, had, FlushAll(c, s1, env).0, Restart(FlushAll(c, s1, env).0, env.now));
    case BrokerError =>
    case Deliver(p, env) => HandleNoJunk(c, base, had, s, p, env);
    case Shutdown(env) =>
      FlushNoJunk(c, base, had, s, env);
      SameRowsNoJunk(c, base, had, FlushAll(c, s, env).0, s');
    case Crash(now) => SameRowsNoJunk(c, base, had, s, s');
  }

  lemma {:induction false} RunNoJunk(c: Codec, base: map<Partition, nat>, had: seq<Row>, s: State, es: seq<Event>)
    requires Sound(c, base, s) && NoJunk(c, base, had, s)
    ensures NoJunk(c, base, had, Run(c, s, es))
    decreases |es|
  {
    if es != [] {
      StepNoJunk(c, base, had, s, es[0]);
      StepKeepsSound(c, base, s, es[0]);
      RunNoJunk(c, base, had, Step(c, s, es[0]), es[1..]);
    }
  }

  /** The row tells a message of the log, column by column. */
  ghost predicate TellsLogged(c: Codec, base: map<Partition, nat>, s: State, r: Row) {
    exists p: Partition, o: nat :: At(base, p) <= o < |Log(s, p)| && TellsMessage(c, p, Log(s, p)[o], r)
  }

  /** Over any messages, malformed ones included, ClickHouse only ever gains rows of messages, and each tells its
      message column by column. */
  lemma RowsComeFromMessages(c: Codec, s: State, es: seq<Event>)
    requires Fresh(s)
    ensures NoJunk(c, s.committed, s.rows, Run(c, s, es))
    ensures forall r :: r in Run(c, s, es).rows ==> r in s.rows || TellsLogged(c, s.committed, Run(c, s, es), r)
  {
    FreshInv(c, s);
    RunNoJunk(c, s.committed, s.rows, s, es);
    var s' := Run(c, s, es);
    forall r | r in s'.rows && r !in s.rows
      ensures TellsLogged(c, s.committed, s', r)
    {
      var p: Partition, o: nat :|
        At(s.committed, p) <= o < |Log(s', p)| && RowOf(c, p, Log(s', p)[o]) == Some(r);
      MessageTold(c, p, Log(s', p)[o]);
    }
  }

  lemma FlushKeepsRows(c: Codec, s: State, env: Env)
    ensures s.rows <= FlushAll(c, s, env).0.rows
  {
  }

  lemma StepKeepsRows(c: Codec, s: State, e: Event)
    ensures s.rows <= Step(c, s, e).rows
  {
    match e
    case Idle(env) =>
      FlushKeepsRows(c, s, env);
      FlushKeepsRows(c, FlushAll(c, s, env).0, env);
    case Deliver(p, env) =>
      if At(s.position, p) < |Log(s, p)| {
        TakeBuffers(c, s, p);
        FlushKeepsRows(c, Take(c, s, p), env);
      }
    case Shutdown(env) => FlushKeepsRows(c, s, env);
    case _ =>
  }

  lemma {:induction false} RunKeepsRows(c: Codec, s: State, es: seq<Event>)
    ensures s.rows <= Run(c, s, es).rows
    decreases |es|
  {
    if es != [] {
      StepKeepsRows(c, s, es[0]);
      RunKeepsRows(c, Step(c, s, es[0]), es[1..]);
    }
  }

  // -- what the buffers hold

  function From(buffer: seq<Entry>, p: Partition): seq<Entry> {
    if buffer == [] then []
    else
      var last := buffer[|buffer| - 1];
      From(buffer[..|buffer| - 1], p) + (if last.part == p then [last] else [])
  }

  function ReadValue(c: Codec, t: Topic, m: Message): Json {
    match Read(c, t, m)
    case Accepted(val) => val
    case _ => Null
  }

  /** The messages of a partition from the committed offset up to the position, as they are buffered. */
  function Between(c: Codec, s: State, p: Partition): seq<Entry>
    requires At(s.committed, p) <= At(s.position, p) <= |Log(s, p)|
  {
    var lo := At(s.committed, p);
    seq(At(s.position, p) - lo, i requires 0 <= i < At(s.position, p) - lo =>
      Entry(p, lo + i, ReadValue(c, p.topic, Log(s, p)[lo + i])))
  }

  ghost predicate ExactAt(c: Codec, s: State, p: Partition)
    requires OffsetsOk(s)
  {
    From(Buffer(s, p.topic), p) == Between(c, s, p)
  }

  ghost predicate Exact(c: Codec, s: State)
    requires OffsetsOk(s)
  {
    forall p :: ExactAt(c, s, p)
  }

  predicate CommitArrives(e: Event) {
    match e
    case Idle(env) => env.commitLands
    case Deliver(_, env) => env.commitLands
    case Shutdown(env) => env.commitLands
    case _ => true
  }

  lemma EmptyExact(c: Codec, s: State)
    requires OffsetsOk(s) && s.txBuffer == [] && s.activityBuffer == []
    requires forall p :: At(s.committed, p) == At(s.position, p)
    ensures Exact(c, s)
  {
    forall p
      ensures ExactAt(c, s, p)
    {
      assert Buffer(s, p.topic) == [];
    }
  }

  lemma SameExact(c: Codec, s: State, s': State)
    requires OffsetsOk(s) && OffsetsOk(s') && Exact(c, s)
    requires s'.position == s.position && s'.committed == s.committed && forall p :: Log(s, p) <= Log(s', p)
    requires s'.txBuffer == s.txBuffer && s'.activityBuffer == s.activityBuffer
    ensures Exact(c, s')
  {
    forall p
      ensures ExactAt(c, s', p)
    {
      assert ExactAt(c, s, p) && Log(s, p) <= Log(s', p);
      assert Between(c, s', p) == Between(c, s, p);
    }
  }

  lemma FlushKeepsExact(c: Codec, base: map<Partition, nat>, s: State, env: Env)
    requires Sound(c, base, s) && Exact(c, s) && env.commitLands
    ensures OffsetsOk(FlushAll(c, s, env).0) && Exact(c, FlushAll(c, s, env).0)
  {
    var s' := FlushAll(c, s, env).0;
    FlushKeepsSound(c, base, s, env);
    FlushShape(c, base, s, env);
    if s'.txBuffer == s.txBuffer && s'.activityBuffer == s.activityBuffer && s'.committed == s.committed {
      SameExact(c, s, s');
    } else {
      EmptyExact(c, s');
    }
  }

  /** What lies between offset and position after one more message of a partition. */
  lemma TakeBetween(c: Codec, s: State, p: Partition, q: Partition)
    requires OffsetsOk(s) && At(s.position, p) < |Log(s, p)| && OffsetsOk(Take(c, s, p))
    ensures var e := Entry(p, At(s.position, p), ReadValue(c, p.topic, Log(s, p)[At(s.position, p)]));
      Between(c, Take(c, s, p), q) == if q == p then Between(c, s, q) + [e] else Between(c, s, q)
  {
    TakeBuffers(c, s, p);
  }

  lemma FromAppend(buffer: seq<Entry>, e: Entry, p: Partition)
    ensures From(buffer + [e], p) == if e.part == p then From(buffer, p) + [e] else From(buffer, p)
  {
    assert (buffer + [e])[..|buffer|] == buffer;
  }

  lemma TakeKeepsExactAt(c: Codec, base: map<Partition, nat>, s: State, p: Partition, q: Partition)
    requires Sound(c, base, s) && At(s.position, p) < |Log(s, p)| && ExactAt(c, s, q)
    requires Read(c, p.topic, Log(s, p)[At(s.position, p)]).Accepted?
    requires OffsetsOk(Take(c, s, p))
    ensures ExactAt(c, Take(c, s, p), q)
  {
    var o := At(s.position, p);
    TakeBuffers(c, s, p);
    TakeBetween(c, s, p, q);
    FromAppend(Buffer(s, q.topic), Entry(p, o, ReadValue(c, p.topic, Log(s, p)[o])), q);
  }

  lemma HandleKeepsExact(c: Codec, base: map<Partition, nat>, s: State, p: Partition, env: Env)
    requires Inv(c, base, s) && Clean(c, base, s) && Exact(c, s) && env.commitLands
    ensures OffsetsOk(Handle(c, s, p, env)) && Exact(c, Handle(c, s, p, env))
  {
    if At(s.position, p) < |Log(s, p)| {
      var s2 := Take(c, s, p);
      assert RowOf(c, p, Log(s, p)[At(s.position, p)]).Some?;
      TakeKeepsSound(c, base, s, p);
      forall q
        ensures ExactAt(c, s2, q)
      {
        assert ExactAt(c, s, q);
        TakeKeepsExactAt(c, base, s, p, q);
      }
      FlushKeepsExact(c, base, s2, env);
      var s3 := FlushAll(c, s2, env).0;
      if FlushAll(c, s2, env).1 {
        TakeKeepsInv(c, base, s, p);
        TakeBuffers(c, s, p);
        FlushNeverRaises(c, base, s2, env);
      }
    }
  }

  lemma StepKeepsExact(c: Codec, base: map<Partition, nat>, s: State, e: Event)
    requires Inv(c, base, s) && Clean(c, base, s) && Exact(c, s) && CommitArrives(e)
    ensures OffsetsOk(Step(c, s, e)) && Exact(c, Step(c, s, e))
  {
    StepKeepsSound(c, base, s, e);
    match e
    case Produce(p, m) =>
      assert forall q :: Log(s, q) <= Log(Step(c, s, e), q);
      SameExact(c, s, Step(c, s, e));
    case Idle(env) =>
      FlushNeverRaises(c, base, s, env);
      FlushKeepsExact(c, base, s, env);
    case BrokerError =>
    case Deliver(p, env) => HandleKeepsExact(c, base, s, p, env);
    case Shutdown(env) => EmptyExact(c, Step(c, s, e));
    case Crash(now) => EmptyExact(c, Step(c, s, e));
  }

  lemma {:induction false} RunKeepsExact(c: Codec, base: map<Partition, nat>, s: State, es: seq<Event>)
    requires Inv(c, base, s) && Durable(c, base, s) && Clean(c, base, Run(c, s, es)) && Exact(c, s)
    requires forall e :: e in es ==> CommitArrives(e)
    ensures OffsetsOk(Run(c, s, es)) && Exact(c, Run(c, s, es))
    decreases |es|
  {
    if es != [] {
      var s1 := Step(c, s, es[0]);
      CleanBackwards(c, base, s1, es[1..]);
      CleanBackwards(c, base, s, [es[0]]);
      assert Run(c, s1, []) == s1 && [es[0]][1..] == [];
      StepKeepsDurable(c, base, s, es[0]);
      StepKeepsExact(c, base, s, es[0]);
      RunKeepsExact(c, base, s1, es[1..]);
    }
  }

  /** The two buffers are exactly the messages from the committed offset to the position, split by topic
      and in order, in every run over deliverable messages whose commits arrive. */
  lemma BuffersAreTheUncommitted(c: Codec, s: State, es: seq<Event>)
    requires Fresh(s) && Clean(c, s.committed, Run(c, s, es))
    requires forall e :: e in es ==> CommitArrives(e)
    ensures OffsetsOk(Run(c, s, es)) && Exact(c, Run(c, s, es))
  {
    FreshInv(c, s);
    EmptyExact(c, s);
    RunKeepsExact(c, s.committed, s, es);
  }

  // -- the consumer can always catch up

  ghost predicate Drained(s: State) {
    && s.txBuffer == [] && s.activityBuffer == []
    && forall p :: At(s.committed, p) == At(s.position, p) == |Log(s, p)|
  }

  /** Nothing is produced meanwhile. */
  predicate Quiet(es: seq<Event>) {
    forall e :: e in es ==> !e.Produce?
  }

  /** Only polls and deliveries, whose commits arrive: no restart, nothing new. */
  predicate Smooth(es: seq<Event>) {
    forall e :: e in es ==> (e.Idle? || e.Deliver?) && CommitArrives(e)
  }

  lemma {:induction false} RunConcat(c: Codec, s: State, xs: seq<Event>, ys: seq<Event>)
    ensures Run(c, s, xs + ys) == Run(c, Run(c, s, xs), ys)
    decreases |xs|
  {
    if xs == [] {
      assert xs + ys == ys;
    } else {
      assert (xs + ys)[1..] == xs[1..] + ys;
      RunConcat(c, Step(c, s, xs[0]), xs[1..], ys);
    }
  }

  lemma StepKeepsLog(c: Codec, s: State, e: Event)
    requires !e.Produce?
    ensures Step(c, s, e).log == s.log
  {
    match e
    case Idle(env) =>
      FlushKeepsPlace(c, s, env);
      FlushKeepsPlace(c, FlushAll(c, s, env).0, env);
    case Deliver(p, env) => HandleKeepsPlace(c, s, p, env);
    case Shutdown(env) => FlushKeepsPlace(c, s, env);
    case _ =>
  }

  lemma {:induction false} QuietKeepsLog(c: Codec, s: State, es: seq<Event>)
    requires Quiet(es)
    ensures Run(c, s, es).log == s.log
    decreases |es|
  {
    if es != [] {
      StepKeepsLog(c, s, es[0]);
      QuietKeepsLog(c, Step(c, s, es[0]), es[1..]);
    }
  }

  function AllWell(now: int): Env {
    Env(now, Landed, Landed, true)
  }

  /** Delivering the next message of a partition, all going well, moves that partition on by one. */
  lemma DeliverMovesOne(c: Codec, base: map<Partition, nat>, s: State, p: Partition)
    requires Inv(c, base, s) && Durable(c, base, s) && Clean(c, base, s) && At(s.position, p) < |Log(s, p)|
    ensures var s1 := Step(c, s, Deliver(p, AllWell(0)));
      && Inv(c, base, s1) && Durable(c, base, s1) && Clean(c, base, s1) && s1.log == s.log
      && forall q :: At(s1.position, q) == if q == p then At(s.position, p) + 1 else At(s.position, q)
  {
    CleanNeverLoses(c, base, s, Deliver(p, AllWell(0)));
    HandleDurableExactly(c, base, s, p, AllWell(0));
    HandleKeepsPlace(c, s, p, AllWell(0));
    SameLogClean(c, base, s, Step(c, s, Deliver(p, AllWell(0))));
  }

  lemma SameLogClean(c: Codec, base: map<Partition, nat>, s: State, s': State)
    requires Clean(c, base, s) && s'.log == s.log
    ensures Clean(c, base, s')
  {
    assert forall p: Partition :: Log(s', p) == Log(s, p);
  }

  lemma {:induction false} DrainPartition(c: Codec, base: map<Partition, nat>, s: State, p: Partition)
    returns (es: seq<Event>)
    requires Inv(c, base, s) && Durable(c, base, s) && Clean(c, base, s)
    ensures Smooth(es)
    ensures forall q :: At(Run(c, s, es).position, q) == if q == p then |Log(s, p)| else At(s.position, q)
    decreases |Log(s, p)| - At(s.position, p)
  {
    if At(s.position, p) == |Log(s, p)| {
      es := [];
    } else {
      var e := Deliver(p, AllWell(0));
      var s1 := Step(c, s, e);
      DeliverMovesOne(c, base, s, p);
      assert Log(s1, p) == Log(s, p);
      var rest := DrainPartition(c, base, s1, p);
      es := [e] + rest;
      assert es[1..] == rest;
    }
  }

  lemma {:induction false} DeliverAll(c: Codec, base: map<Partition, nat>, s: State, todo: set<Partition>)
    returns (es: seq<Event>)
    requires Inv(c, base, s) && Durable(c, base, s) && Clean(c, base, s)
    requires forall p :: p !in todo ==> At(s.position, p) == |Log(s, p)|
    ensures Smooth(es)
    ensures forall p :: At(Run(c, s, es).position, p) == |Log(s, p)|
    decreases |todo|
  {
    if todo == {} {
      es := [];
    } else {
      var p :| p in todo;
      var first := DrainPartition(c, base, s, p);
      QuietKeepsLog(c, s, first);
      var s1 := Run(c, s, first);
      assert forall q :: Log(s1, q) == Log(s, q);
      RunKeepsDurable(c, base, s, first);
      var rest := DeliverAll(c, base, s1, todo - {p});
      es := first + rest;
      RunConcat(c, s, first, rest);
    }
  }

  lemma FlushDrains(c: Codec, base: map<Partition, nat>, s: State)
    requires Inv(c, base, s) && Clean(c, base, s) && Exact(c, s)
    requires forall p :: At(s.position, p) == |Log(s, p)|
    ensures Drained(Step(c, s, Idle(AllWell(s.lastFlush + FLUSH_INTERVAL))))
  {
    var env := AllWell(s.lastFlush + FLUSH_INTERVAL);
    FlushNeverRaises(c, base, s, env);
    var s' := FlushAll(c, s, env).0;
    assert forall p :: Log(s', p) == Log(s, p);
    if s.txBuffer == [] && s.activityBuffer == [] {
      forall p
        ensures At(s.committed, p) == At(s.position, p)
      {
        assert ExactAt(c, s, p) && Buffer(s, p.topic) == [];
        assert |Between(c, s, p)| == 0;
      }
    } else {
      assert PrepareAll(c, Transactions, s.txBuffer).Some? && PrepareAll(c, Activity, s.activityBuffer).Some?;
    }
  }

  /** While no commit has been lost, some uninterrupted continuation without new messages leaves nothing undelivered. */
  lemma CanDrainSmoothly(c: Codec, base: map<Partition, nat>, s: State) returns (es: seq<Event>)
    requires Inv(c, base, s) && Durable(c, base, s) && Clean(c, base, s) && Exact(c, s)
    ensures Smooth(es) && Drained(Run(c, s, es))
  {
    var deliveries := DeliverAll(c, base, s, s.log.Keys);
    QuietKeepsLog(c, s, deliveries);
    var s1 := Run(c, s, deliveries);
    assert forall p :: Log(s1, p) == Log(s, p);
    RunKeepsDurable(c, base, s, deliveries);
    RunKeepsExact(c, base, s, deliveries);
    FlushDrains(c, base, s1);
    var last := Idle(AllWell(s1.lastFlush + FLUSH_INTERVAL));
    es := deliveries + [last];
    RunConcat(c, s, deliveries, [last]);
    assert [last][1..] == [];
  }

  /** From every reachable state some continuation without new messages leaves nothing undelivered; it may start the
      process again. */
  lemma CanDrain(c: Codec, base: map<Partition, nat>, s: State) returns (es: seq<Event>)
    requires Inv(c, base, s) && Durable(c, base, s) && Clean(c, base, s)
    ensures Quiet(es) && Drained(Run(c, s, es))
  {
    var s1 := Restart(s, 0);
    RestartKeepsInv(c, base, s, 0);
    assert forall p :: Log(s1, p) == Log(s, p);
    EmptyExact(c, s1);
    var rest := CanDrainSmoothly(c, base, s1);
    es := [Crash(0)] + rest;
    RunConcat(c, s, [Crash(0)], rest);
    assert [Crash(0)][1..] == [];
    assert Run(c, s, [Crash(0)]) == s1;
  }

  /** A lost commit is what needs the restart: where everything has been polled and flushed but a commit did not
      arrive, no uninterrupted continuation without new messages changes anything. */
  lemma {:induction false} LostCommitNeedsRestart(c: Codec, s: State, es: seq<Event>)
    requires s.txBuffer == [] && s.activityBuffer == [] && forall p :: At(s.position, p) == |Log(s, p)|
    requires forall e :: e in es ==> e.Idle? || e.Deliver? || e.BrokerError?
    ensures Run(c, s, es) == s
    decreases |es|
  {
    if es != [] {
      assert es[0] in es && Step(c, s, es[0]) == s;
      LostCommitNeedsRestart(c, s, es[1..]);
    }
  }
}
