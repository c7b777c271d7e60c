/**
 What the poll loop does with one message and one idle poll (backend/consumer.py): what is dropped, what is buffered,
 when the buffers are flushed, and how full they can get.
 */
module ConsumerSteps {
  import opened Wrappers
  import opened Payloads
  import opened Consumer
  import opened Delivery

  /** The keys a message of a topic must have. */
  function Needed(t: Topic): set<string> {
    if t.Activity? then {"event_id", "user_id", "category", "action", "event_time", "title"}
    else {"transaction_id", "account_id", "amount", "category", "merchant", "timestamp"}
  }

  /** How a message is read.  Text that is not JSON raises; an object is accepted, decrypted, exactly with all the keys
      it needs; a string or a list is accepted too when it mentions them all, but never becomes a row; any other value
      raises. */
  lemma ReadExactly(c: Codec, t: Topic, m: Message)
    ensures var r := Read(c, t, m);
      match m
      case Garbage => r == Raises
      case Value(Obj(fields)) =>
        var val := Obj(Decrypt(c, fields));
        r == if Needed(t) <= fields.Keys then Accepted(val) else Malformed(val)
      case Value(Str(s)) =>
        && r == (if forall f :: f in Needed(t) ==> Contains(s, f) then Accepted(Str(s)) else Malformed(Str(s)))
        && Prepare(c, t, Str(s)) == None
      case Value(Arr(items)) =>
        && r == (if forall f :: f in Needed(t) ==> Str(f) in items then Accepted(Arr(items)) else Malformed(Arr(items)))
        && Prepare(c, t, Arr(items)) == None
      case Value(_) => r == Raises
  {
    assert Needed(t) == Required(t);
  }

  /** The message under the position is not accepted: it is passed over, noted if only fields are missing, and the
      position is committed; nothing is buffered or inserted. */
  lemma UnacceptedIsDropped(c: Codec, s: State, p: Partition, env: Env)
    requires At(s.position, p) < |Log(s, p)|
    requires !Read(c, p.topic, Log(s, p)[At(s.position, p)]).Accepted?
    ensures var o := At(s.position, p);
      var reading := Read(c, p.topic, Log(s, p)[o]);
      var s' := Step(c, s, Deliver(p, env));
      && s'.position == s.position[p := o + 1] && s'.rows == s.rows && s'.log == s.log
      && s'.txBuffer == s.txBuffer && s'.activityBuffer == s.activityBuffer
      && s'.committed == (if env.commitLands then s'.position else s.committed)
      && s'.malformed == s.malformed + (if reading.Malformed? then [Entry(p, o, reading.val)] else [])
  {
  }

  /** An accepted message joins the buffer of its topic, and as long as both buffers together hold fewer than a hundred
      nothing else happens. */
  lemma AcceptedIsBuffered(c: Codec, s: State, p: Partition, env: Env)
    requires At(s.position, p) < |Log(s, p)|
    requires Read(c, p.topic, Log(s, p)[At(s.position, p)]).Accepted?
    requires |s.txBuffer| + |s.activityBuffer| < 99
    ensures var o := At(s.position, p);
      var e := Entry(p, o, Read(c, p.topic, Log(s, p)[o]).val);
      Step(c, s, Deliver(p, env)) == s.(
        position := s.position[p := o + 1],
        txBuffer := if p.topic.Transactions? then s.txBuffer + [e] else s.txBuffer,
        activityBuffer := if p.topic.Activity? then s.activityBuffer + [e] else s.activityBuffer)
  {
  }

  /** Both buffers can be turned into rows, and both inserts arrive. */
  ghost predicate CanFlush(c: Codec, s: State, env: Env) {
    && PrepareAll(c, Transactions, s.txBuffer).Some? && PrepareAll(c, Activity, s.activityBuffer).Some?
    && env.tx.Landed? && env.activity.Landed?
  }

  /** The state after everything buffered has been inserted, transactions first, and committed. */
  ghost predicate Flushed(c: Codec, s: State, s': State, env: Env) {
    && s'.txBuffer == [] && s'.activityBuffer == [] && s'.lastFlush == env.now
    && s'.log == s.log && s'.position == s.position
    && |s'.rows| == |s.rows| + |s.txBuffer| + |s.activityBuffer| && s.rows <= s'.rows
    && (forall i :: 0 <= i < |s.txBuffer| ==>
          Prepare(c, Transactions, s.txBuffer[i].val) == Some(s'.rows[|s.rows| + i]))
    && (forall i :: 0 <= i < |s.activityBuffer| ==>
          Prepare(c, Activity, s.activityBuffer[i].val) == Some(s'.rows[|s.rows| + |s.txBuffer| + i]))
    && s'.committed == if env.commitLands then s.position else s.committed
  }

  lemma FlushInserts(c: Codec, s: State, env: Env)
    requires CanFlush(c, s, env) && (s.txBuffer != [] || s.activityBuffer != [])
    ensures !FlushAll(c, s, env).1 && Flushed(c, s, FlushAll(c, s, env).0, env)
  {
  }

  /** The hundredth buffered message flushes both buffers. */
  lemma HundredthFlushes(c: Codec, s: State, p: Partition, env: Env)
    requires At(s.position, p) < |Log(s, p)|
    requires Read(c, p.topic, Log(s, p)[At(s.position, p)]).Accepted?
    requires |s.txBuffer| + |s.activityBuffer| >= 99 && CanFlush(c, Take(c, s, p), env)
    ensures Flushed(c, Take(c, s, p), Step(c, s, Deliver(p, env)), env)
  {
    TakeBuffers(c, s, p);
    var s1 := Take(c, s, p);
    assert Buffer(s1, p.topic) != [];
    FlushInserts(c, s1, env);
  }

  /** An idle poll flushes five seconds or more after the last flush, and not before. */
  lemma IdleFlushesExactly(c: Codec, s: State, env: Env)
    requires CanFlush(c, s, env) && (s.txBuffer != [] || s.activityBuffer != [])
    ensures if env.now - s.lastFlush >= 5 then Flushed(c, s, Step(c, s, Idle(env)), env)
      else Step(c, s, Idle(env)) == s
  {
    FlushInserts(c, s, env);
  }

  predicate Arrives(e: Event) {
    e.Idle? || e.Deliver? || e.Shutdown? ==> e.env.tx.Landed? && e.env.activity.Landed?
  }

  lemma StepStaysBelow(c: Codec, base: map<Partition, nat>, s: State, e: Event)
    requires Inv(c, base, s) && Durable(c, base, s) && Clean(c, base, Step(c, s, e)) && Arrives(e)
    requires |s.txBuffer| + |s.activityBuffer| < 100
    ensures var s' := Step(c, s, e); |s'.txBuffer| + |s'.activityBuffer| < 100
  {
    if e.Deliver? && At(s.position, e.p) < |Log(s, e.p)| {
      CleanBackwards(c, base, s, [e]);
      var s1 := Take(c, s, e.p);
      TakeKeepsInv(c, base, s, e.p);
      TakeBuffers(c, s, e.p);
      FlushNeverRaises(c, base, s1, e.env);
    }
  }

  /** Over any run of deliverable messages whose inserts arrive, with lost commits, crashes and restarts, the buffers
      never hold a hundred messages. */
  lemma {:induction false} BuffersStayBelowHundred(c: Codec, base: map<Partition, nat>, s: State, es: seq<Event>)
    requires Inv(c, base, s) && Durable(c, base, s) && Clean(c, base, Run(c, s, es))
    requires |s.txBuffer| + |s.activityBuffer| < 100 && forall e :: e in es ==> Arrives(e)
    ensures var s' := Run(c, s, es); |s'.txBuffer| + |s'.activityBuffer| < 100
    decreases |es|
  {
    if es != [] {
      assert es[0] in es && forall e :: e in es[1..] ==> e in es;
      var s1 := Step(c, s, es[0]);
      CleanBackwards(c, base, s1, es[1..]);
      StepStaysBelow(c, base, s, es[0]);
      StepKeepsDurable(c, base, s, es[0]);
      BuffersStayBelowHundred(c, base, s1, es[1..]);
    }
  }
}
