/**
 What holds of scheduled payments over whole runs: money against payments made, lifetime bounds, the end of a
 schedule, and the spacing of its payments.
 */
module ScheduleBooks {
  import opened Wrappers
  import opened Dates
  import opened Schedule
  import Ledger = BankLedger
  import Books = BankBooks

  // ---------------------------------------------------------------- measures on the ledger's rows

  /** The money the rows say left an account: debits, without the records of failed attempts. */
  function Debited(rows: seq<Ledger.Row>): int {
    if rows == [] then 0
    else
      Debited(rows[1..]) + if rows[0].side == "DEBIT" && !Books.IsFailedAttempt(rows[0]) then -rows[0].amount else 0
  }

  function FailedAttempts(rows: seq<Ledger.Row>): nat {
    if rows == [] then 0 else FailedAttempts(rows[1..]) + if Books.IsFailedAttempt(rows[0]) then 1 else 0
  }

  /** The rows a step of payment `id` adds to the ledger. */
  function RowsFor(w: World, e: Event, id: nat): seq<Ledger.Row> {
    var rows := Step(w, e).db.rows;
    if e.Process? && e.id == id && |w.db.rows| <= |rows| then rows[|w.db.rows|..] else []
  }

  /** The money a run debits for payment `id`. */
  function MoneyMoved(w: World, es: seq<Event>, id: nat): int
    decreases |es|
  {
    if es == [] then 0 else Debited(RowsFor(w, es[0], id)) + MoneyMoved(Step(w, es[0]), es[1..], id)
  }

  /** The failed attempts a run records for payment `id`. */
  function Misses(w: World, es: seq<Event>, id: nat): nat
    decreases |es|
  {
    if es == [] then 0 else FailedAttempts(RowsFor(w, es[0], id)) + Misses(Step(w, es[0]), es[1..], id)
  }

  function Made(w: World, id: nat): nat {
    if id < |w.payments| then w.payments[id].made else 0
  }

  function Retries(w: World, id: nat): nat {
    if id < |w.payments| then w.payments[id].retries else 0
  }

  // ---------------------------------------------------------------- the ledger effect of one attempt

  lemma PayRows(db: Ledger.Db, p: Payment, v: Ledger.Vendors)
    requires PlanFor(db, p, v).Pay?
    ensures var db' := Apply(db, PlanFor(db, p, v).op);
      && db.rows <= db'.rows
      && Debited(db'.rows[|db.rows|..]) == p.amount && FailedAttempts(db'.rows[|db.rows|..]) == 0
  {
    var op := PlanFor(db, p, v).op;
    var db' := Apply(db, op);
    if op.ScheduledVendor? {
      var r := db'.rows[|db.rows|];
      assert db'.rows[|db.rows|..] == [r];
    } else {
      var r1, r2 := db'.rows[|db.rows|], db'.rows[|db.rows| + 1];
      assert db'.rows[|db.rows|..] == [r1, r2];
      assert r1.side == "DEBIT" && r2.side == "CREDIT" && r1.status == r2.status == "cleared" && r1.amount == -p.amount;
      assert [r1, r2][1..] == [r2] && [r2][1..] == [];
      assert Debited([r2]) == 0 && FailedAttempts([r2]) == 0;
    }
  }

  lemma MissRows(db: Ledger.Db, p: Payment, v: Ledger.Vendors)
    requires PlanFor(db, p, v).Miss?
    ensures var db' := Apply(db, PlanFor(db, p, v).op);
      && db.rows <= db'.rows
      && Debited(db'.rows[|db.rows|..]) == 0 && FailedAttempts(db'.rows[|db.rows|..]) == 1
  {
    var db' := Apply(db, PlanFor(db, p, v).op);
    var r := db'.rows[|db.rows|];
    assert db'.rows[|db.rows|..] == [r];
  }

  // ---------------------------------------------------------------- accounting

  /** What every payment created through the endpoint keeps. */
  predicate Kept(p: Payment) {
    && p.amount > 0 && p.retries <= 3
    && (p.retries == 3 ==> p.status == Failed)
    && (p.status == Retrying ==> p.retries > 0)
    && (p.endCondition == "target" ==> p.made <= Limit(p))
    && (p.endCondition == "target" && !Terminal(p) ==> p.made < Limit(p))
    && (p.nextRun.Some? <==> !Terminal(p) && p.frequency in RECURRING)
    && (p.status == Active && p.made > 0 ==> EndsInTime(p))
    && (p.frequency !in RECURRING ==> p.made == p.retries == 0 && p.status in {Active, Cancelled})
  }

  /** The next run is not past the end date. */
  predicate EndsInTime(p: Payment) {
    p.endCondition == "date" && p.endDate.Some? && p.nextRun.Some? ==>
        Instant(p.nextRun.value) <= Instant(p.endDate.value)
  }

  /** A target of less than one payment, or none, still lets the first one through. */
  function Limit(p: Payment): nat {
    if p.target.Some? && p.target.value > 1 then p.target.value else 1
  }

  ghost predicate AllKept(w: World) {
    forall i :: 0 <= i < |w.payments| ==> Kept(w.payments[i])
  }

  lemma SuccessKept(p: Payment, now: Moment)
    requires Kept(p) && Due(p, now)
    ensures AfterSuccess(p, now).Some? && Kept(AfterSuccess(p, now).value)
  {
    NextRunIsLater(now, p.frequency);
  }

  lemma FailureKept(p: Payment, later: Moment, now: Moment)
    requires Kept(p) && Due(p, now)
    ensures Kept(AfterFailure(p, later))
  {
  }

  lemma StepKept(w: World, e: Event)
    requires AllKept(w)
    ensures AllKept(Step(w, e))
  {
    match e
    case Create(user, r, now) => NextRunIsLater(now, r.frequency);
    case Cancel(_, _) =>
    case Bank(_) =>
    case Process(id, a) =>
      if id < |w.payments| && Due(w.payments[id], a.now) {
        var p := w.payments[id];
        SuccessKept(p, a.now);
        FailureKept(p, a.later, a.now);
      }
  }

  /** One attempt: the rows it adds are the amount if a payment was made and one record if the attempt failed. */
  lemma AttemptAccounting(w: World, id: nat, a: Attempt)
    requires id < |w.payments|
    ensures var w1 := ProcessOne(w, id, a);
      var p, q := w.payments[id], w1.payments[id];
      && |w1.payments| == |w.payments| && w.db.rows <= w1.db.rows && SameTerms(p, q)
      && Debited(w1.db.rows[|w.db.rows|..]) == (if q.made == p.made then 0 else p.amount)
      && FailedAttempts(w1.db.rows[|w.db.rows|..]) == q.retries - p.retries
      && p.made <= q.made <= p.made + 1
  {
    var p := w.payments[id];
    assert w.db.rows[|w.db.rows|..] == [];
    match PlanFor(w.db, p, a.vendors)
    case GiveUp =>
    case Miss(op) => MissRows(w.db, p, a.vendors);
    case Pay(op) => PayRows(w.db, p, a.vendors);
  }

  /** The terms agreed at creation: everything but the four fields the worker updates. */
  predicate SameTerms(p: Payment, q: Payment) {
    q == p.(made := q.made, retries := q.retries, status := q.status, nextRun := q.nextRun)
  }

  function AmountOf(w: World, id: nat): int {
    if id < |w.payments| then w.payments[id].amount else 0
  }

  lemma StepAccounting(w: World, e: Event, id: nat)
    ensures var w1 := Step(w, e);
      && |w.payments| <= |w1.payments|
      && (id < |w.payments| ==> SameTerms(w.payments[id], w1.payments[id]))
      && Made(w, id) <= Made(w1, id) <= Made(w, id) + 1
      && Debited(RowsFor(w, e, id)) == (if Made(w1, id) == Made(w, id) then 0 else AmountOf(w1, id))
      && FailedAttempts(RowsFor(w, e, id)) == Retries(w1, id) - Retries(w, id)
  {
    if e.Process? {
      assert w.db.rows[|w.db.rows|..] == [];
      if e.id < |w.payments| && Due(w.payments[e.id], e.attempt.now) {
        AttemptAccounting(w, e.id, e.attempt);
      }
    }
  }

  /** `n` payments of `amount`. */
  function Times(amount: int, n: nat): int {
    if n == 0 then 0 else amount + Times(amount, n - 1)
  }

  lemma {:induction false} TimesIsProduct(amount: int, n: nat)
    ensures Times(amount, n) == amount * n
  {
    if n > 0 {
      TimesIsProduct(amount, n - 1);
    }
  }

  lemma {:induction false} RunKept(w: World, es: seq<Event>)
    requires AllKept(w)
    ensures AllKept(Run(w, es))
    decreases |es|
  {
    if es != [] {
      StepKept(w, es[0]);
      RunKept(Step(w, es[0]), es[1..]);
    }
  }

  /** No run changes the terms of a payment or removes one. */
  lemma {:induction false} TermsFixed(w: World, es: seq<Event>, id: nat)
    ensures |w.payments| <= |Run(w, es).payments|
    ensures id < |w.payments| ==> SameTerms(w.payments[id], Run(w, es).payments[id])
    decreases |es|
  {
    if es != [] {
      StepAccounting(w, es[0], id);
      TermsFixed(Step(w, es[0]), es[1..], id);
    }
  }

  lemma StepMoney(w: World, e: Event, amount: int, id: nat)
    requires Made(Step(w, e), id) > 0 ==> AmountOf(Step(w, e), id) == amount
    ensures Debited(RowsFor(w, e, id)) + Times(amount, Made(w, id)) == Times(amount, Made(Step(w, e), id))
  {
    StepAccounting(w, e, id);
  }

  /** From any state: what a run debits for a payment, against the change of its payment count. */
  lemma {:induction false} MoneyMovedFrom(w: World, es: seq<Event>, id: nat)
    ensures var amount := AmountOf(Run(w, es), id);
      MoneyMoved(w, es, id) + Times(amount, Made(w, id)) == Times(amount, Made(Run(w, es), id))
    decreases |es|
  {
    if es != [] {
      TermsFixed(Step(w, es[0]), es[1..], id);
      StepMoney(w, es[0], AmountOf(Run(w, es), id), id);
      MoneyMovedFrom(Step(w, es[0]), es[1..], id);
    }
  }

  lemma {:induction false} MissesFrom(w: World, es: seq<Event>, id: nat)
    ensures Misses(w, es, id) == Retries(Run(w, es), id) - Retries(w, id)
    decreases |es|
  {
    if es != [] {
      StepAccounting(w, es[0], id);
      MissesFrom(Step(w, es[0]), es[1..], id);
    }
  }

  /** Money moved is amount times payments made, and failed attempts are the retry count, whatever the run: polls in
      any order, retries, cancellations and other business of the bank in between. */
  lemma Accounting(db: Ledger.Db, es: seq<Event>, id: nat)
    ensures var w := World(db, []);
      var w' := Run(w, es);
      id < |w'.payments| ==>
        var p := w'.payments[id];
        && MoneyMoved(w, es, id) == p.amount * p.made && Misses(w, es, id) == p.retries <= 3
        && (p.retries == 3 ==> p.status == Failed)
        && (p.endCondition == "target" ==> p.made <= Limit(p))
        && (p.nextRun.Some? <==> !Terminal(p) && p.frequency in RECURRING)
  {
    MoneyMovedFrom(World(db, []), es, id);
    TimesIsProduct(AmountOf(Run(World(db, []), es), id), Made(Run(World(db, []), es), id));
    MissesFrom(World(db, []), es, id);
    RunKept(World(db, []), es);
  }

  /** Nothing happens to a payment that is completed, failed or cancelled. */
  lemma {:induction false} NothingAfterTheEnd(w: World, es: seq<Event>, id: nat)
    requires id < |w.payments| && Terminal(w.payments[id])
    ensures id < |Run(w, es).payments| && Run(w, es).payments[id] == w.payments[id]
    ensures MoneyMoved(w, es, id) == 0 && Misses(w, es, id) == 0
    decreases |es|
  {
    if es != [] {
      StepAccounting(w, es[0], id);
      NothingAfterTheEnd(Step(w, es[0]), es[1..], id);
    }
  }

  /** Without an interval only the four recurring frequencies have a next run, so a payment of any other frequency,
      One-time included, stays active and never moves any money. */
  lemma OnlyRecurringPay(db: Ledger.Db, es: seq<Event>, id: nat)
    requires id < |Run(World(db, []), es).payments| && Run(World(db, []), es).payments[id].frequency !in RECURRING
    ensures var p := Run(World(db, []), es).payments[id];
      p.status in {Active, Cancelled} && p.made == 0 && MoneyMoved(World(db, []), es, id) == 0
  {
    RunKept(World(db, []), es);
    assert Kept(Run(World(db, []), es).payments[id]);
    MoneyMovedFrom(World(db, []), es, id);
  }

  /** A due payment always advances: it is paid exactly when the plan is to pay it, otherwise its failure is counted or
      it is given up.  In particular the comparison with the end date never raises. */
  lemma DuePaymentAdvances(w: World, id: nat, a: Attempt)
    requires AllKept(w) && id < |w.payments| && Due(w.payments[id], a.now)
    ensures var p, q := w.payments[id], Step(w, Process(id, a)).payments[id];
      && (q.made == p.made + 1 <==> PlanFor(w.db, p, a.vendors).Pay?)
      && (q.retries == p.retries + 1 <==> PlanFor(w.db, p, a.vendors).Miss?)
      && (PlanFor(w.db, p, a.vendors).GiveUp? ==> q.status == Failed)
  {
    SuccessKept(w.payments[id], a.now);
  }

  /** A scheduled payment that the vendor refuses is debited and counted like one it accepts. */
  lemma RefusedPaymentCounts(w: World, id: nat, a: Attempt)
    requires AllKept(w) && id < |w.payments| && Due(w.payments[id], a.now)
    requires PlanFor(w.db, w.payments[id], a.vendors).Pay?
    requires PlanFor(w.db, w.payments[id], a.vendors).op.ScheduledVendor?
    ensures var p := w.payments[id];
      var w1 := Step(w, Process(id, a.(vendors := a.vendors.(cleared := true))));
      var w2 := Step(w, Process(id, a.(vendors := a.vendors.(cleared := false))));
      && w2.payments == w1.payments && w2.payments[id].made == p.made + 1
      && w2.db.accounts == w1.db.accounts
      && |w2.db.rows| == |w.db.rows| + 1 && w2.db.rows[|w.db.rows|].status == "failed"
      && w2.db.rows[|w.db.rows|].amount == -p.amount
  {
    SuccessKept(w.payments[id], a.now);
  }

  /** Creation does not look at the end date: a payment whose end date lies before its first run is paid once anyway. */
  lemma FirstPaymentIgnoresEndDate(w: World, user: int, r: Request, now: Moment, a: Attempt)
    requires r.amount > 0 && r.frequency in RECURRING && r.endCondition == "date" && r.endDate.Some?
    requires a.now == CalculateNextRunAt(now, r.frequency, None).value && Instant(r.endDate.value) < Instant(a.now)
    requires PlanFor(w.db, NewPayment(user, r, now), a.vendors).Pay?
    ensures var id := |w.payments|;
      var w1 := Step(w, Create(user, r, now));
      var w2 := Step(w1, Process(id, a));
      Made(w2, id) == 1 && w2.payments[id].status == Completed && Debited(RowsFor(w1, Process(id, a), id)) == r.amount
  {
    var p := NewPayment(user, r, now);
    var w1 := Step(w, Create(user, r, now));
    assert w1.payments[|w.payments|] == p && w1.db == w.db;
    NextRunIsLater(a.now, r.frequency);
    assert AfterSuccess(p, a.now) == Some(Stop(p.(made := 1), Completed));
    PayRows(w.db, p, a.vendors);
  }

  // ---------------------------------------------------------------- spacing

  predicate Paid(w: World, e: Event, id: nat) {
    e.Process? && Made(Step(w, e), id) > Made(w, id)
  }

  /** The poll times at which a run pays payment `id`. */
  function Successes(w: World, es: seq<Event>, id: nat): seq<Moment>
    decreases |es|
  {
    if es == [] then []
    else (if Paid(w, es[0], id) then [es[0].attempt.now] else []) + Successes(Step(w, es[0]), es[1..], id)
  }

  /** The clock does not run backwards within an attempt. */
  predicate ClockRuns(e: Event) {
    e.Process? ==> Instant(e.attempt.now) <= Instant(e.attempt.later)
  }

  predicate NotBefore(t: Moment, earliest: Option<Moment>) {
    earliest.Some? && Instant(t) >= Instant(earliest.value)
  }

  /** A payment made at `now` leaves the next run to the calendar or ends the schedule; any other step leaves the next
      run, clears it or puts it off. */
  lemma StepNextRun(w: World, e: Event, id: nat)
    requires id < |w.payments| && ClockRuns(e)
    ensures id < |Step(w, e).payments|
    ensures var p, q := w.payments[id], Step(w, e).payments[id];
      if Paid(w, e, id) then
        NotBefore(e.attempt.now, p.nextRun) && q.nextRun in {None, CalculateNextRunAt(e.attempt.now, p.frequency, None)}
      else q.nextRun in {None, p.nextRun} || (q.nextRun.Some? && NotBefore(q.nextRun.value, p.nextRun))
  {
    if e.Process? && e.id == id && Due(w.payments[id], e.attempt.now) {
      AddDaysInstant(e.attempt.later, 1);
    }
  }

  lemma {:induction false} FirstSuccess(w: World, es: seq<Event>, id: nat)
    requires id < |w.payments| && forall e :: e in es ==> ClockRuns(e)
    ensures Successes(w, es, id) != [] ==> NotBefore(Successes(w, es, id)[0], w.payments[id].nextRun)
    decreases |es|
  {
    if es != [] {
      StepNextRun(w, es[0], id);
      FirstSuccess(Step(w, es[0]), es[1..], id);
    }
  }

  ghost predicate Spaced(times: seq<Moment>, frequency: string) {
    forall i :: 0 <= i < |times| - 1 ==> NotBefore(times[i + 1], CalculateNextRunAt(times[i], frequency, None))
  }

  function FrequencyOf(w: World, id: nat): string {
    if id < |w.payments| then w.payments[id].frequency else ""
  }

  /** Consecutive payments at poll times a and b: b is not before the next run computed at a, whatever retries, other
      payments and bank business lie in between. */
  lemma {:induction false} Spacing(w: World, es: seq<Event>, id: nat)
    requires forall e :: e in es ==> ClockRuns(e)
    ensures Spaced(Successes(w, es, id), FrequencyOf(Run(w, es), id))
    decreases |es|
  {
    if es != [] {
      var w1 := Step(w, es[0]);
      Spacing(w1, es[1..], id);
      if Paid(w, es[0], id) {
        StepNextRun(w, es[0], id);
        StepAccounting(w, es[0], id);
        TermsFixed(w1, es[1..], id);
        FirstSuccess(w1, es[1..], id);
        var rest := Successes(w1, es[1..], id);
        assert Successes(w, es, id) == [es[0].attempt.now] + rest;
        if rest != [] {
          assert NotBefore(rest[0], CalculateNextRunAt(es[0].attempt.now, FrequencyOf(Run(w, es), id), None));
        }
      }
    }
  }

  lemma {:induction false} SpanOf(times: seq<Moment>, frequency: string, k: nat)
    requires k < |times| && Spaced(times, frequency)
    ensures Instant(times[k]) >= Instant(times[0]) + k * (Period(frequency) * DAY)
  {
    if k > 0 {
      var period := Period(frequency) * DAY;
      SpanOf(times, frequency, k - 1);
      assert Instant(times[k]) >= Instant(times[k - 1]) + period by {
        assert NotBefore(times[k - 1 + 1], CalculateNextRunAt(times[k - 1], frequency, None));
        NextRunIsLater(times[k - 1], frequency);
      }
      assert k * period == (k - 1) * period + period;
    }
  }

  /** k payments span at least k - 1 periods: 7 (k - 1) days for Weekly.  A payment of any other frequency, however it
      came to be due, is made at most once. */
  lemma Span(w: World, es: seq<Event>, id: nat)
    requires forall e :: e in es ==> ClockRuns(e)
    ensures var times, frequency := Successes(w, es, id), FrequencyOf(Run(w, es), id);
      && (times != [] ==> Instant(times[|times| - 1]) >= Instant(times[0]) + (|times| - 1) * (Period(frequency) * DAY))
      && (frequency !in RECURRING ==> |times| <= 1)
  {
    var times, frequency := Successes(w, es, id), FrequencyOf(Run(w, es), id);
    Spacing(w, es, id);
    if times != [] {
      SpanOf(times, frequency, |times| - 1);
    }
    if |times| > 1 {
      assert NotBefore(times[0 + 1], CalculateNextRunAt(times[0], frequency, None));
      NextRunIsLater(times[0], frequency);
    }
  }

  // ---------------------------------------------------------------- the end date

  /** The end date the schedule asks for, if it asks for one. */
  function EndDate(p: Payment): Option<Moment> {
    if p.endCondition == "date" then p.endDate else None
  }

  predicate PastEnd(p: Payment, t: Moment) {
    EndDate(p).Some? && Instant(EndDate(p).value) < Instant(t)
  }

  /** A payment is made past its end date exactly when it is due, payable and polled past that date: neither the plan
      nor a retry looks at it. */
  lemma PaidPastEndExactly(w: World, id: nat, a: Attempt)
    requires AllKept(w)
    ensures Paid(w, Process(id, a), id) && PastEnd(w.payments[id], a.now) <==>
      && id < |w.payments| && Due(w.payments[id], a.now) && PlanFor(w.db, w.payments[id], a.vendors).Pay?
      && PastEnd(w.payments[id], a.now)
  {
    if id < |w.payments| && Due(w.payments[id], a.now) {
      DuePaymentAdvances(w, id, a);
    }
  }

  /** A retry does not look at the end date: a failed attempt whose next day lies past that date is tried again then,
      and paid if the plan allows it by that time. */
  lemma RetryIgnoresEndDate(w: World, id: nat, a: Attempt, w2: World, b: Attempt)
    requires AllKept(w) && id < |w.payments| && Due(w.payments[id], a.now) && w.payments[id].retries < 2
    requires PlanFor(w.db, w.payments[id], a.vendors).Miss?
    requires w2.payments == Step(w, Process(id, a)).payments
    requires b.now == AddDays(a.later, 1) && PastEnd(w.payments[id], b.now)
    requires PlanFor(w2.db, w2.payments[id], b.vendors).Pay?
    ensures Paid(w2, Process(id, b), id) && PastEnd(w2.payments[id], b.now)
  {
    FailureKept(w.payments[id], a.later, a.now);
    StepKept(w, Process(id, a));
    PaidPastEndExactly(w2, id, b);
  }

  /** A payment made past the end date completes the schedule. */
  lemma PastEndCompletes(w: World, id: nat, a: Attempt)
    requires Paid(w, Process(id, a), id) && PastEnd(w.payments[id], a.now)
    ensures Step(w, Process(id, a)).payments[id].status == Completed
  {
    NextRunIsLater(a.now, w.payments[id].frequency);
  }

  lemma LastAtOnce(w: World, e: Event, later: seq<Event>, id: nat)
    requires Paid(w, e, id) && PastEnd(w.payments[id], e.attempt.now)
    ensures var w1 := Step(w, e);
      && Successes(w1, later, id) == []
      && id < |Run(w1, later).payments| && Run(w1, later).payments[id].status == Completed
  {
    PastEndCompletes(w, id, e.attempt);
    NothingAfterTheEnd(Step(w, e), later, id);
    NoPaymentAfterTheEnd(Step(w, e), later, id);
  }

  /** Of these times only the last can be past the end. */
  ghost predicate OnlyLastLate(p: Payment, times: seq<Moment>) {
    forall i :: 0 <= i < |times| - 1 ==> !PastEnd(p, times[i])
  }

  predicate LastIsLate(p: Payment, times: seq<Moment>) {
    times != [] && PastEnd(p, times[|times| - 1])
  }

  lemma OneMoreTime(p: Payment, q: Payment, t: Moment, rest: seq<Moment>)
    requires SameTerms(p, q) && OnlyLastLate(q, rest) && (PastEnd(p, t) ==> rest == [])
    ensures OnlyLastLate(p, [t] + rest)
    ensures LastIsLate(p, [t] + rest) <==> if rest == [] then PastEnd(p, t) else LastIsLate(q, rest)
  {
    forall i | 0 <= i < |[t] + rest| - 1
      ensures !PastEnd(p, ([t] + rest)[i])
    {
      if i > 0 {
        assert !PastEnd(q, rest[i - 1]);
      }
    }
  }

  /** Over any run only the last payment can be made past the end date, and it completes the schedule. */
  lemma {:induction false} OnlyLastPastEnd(w: World, es: seq<Event>, id: nat)
    requires id < |w.payments|
    ensures OnlyLastLate(w.payments[id], Successes(w, es, id))
    ensures LastIsLate(w.payments[id], Successes(w, es, id)) ==>
      id < |Run(w, es).payments| && Run(w, es).payments[id].status == Completed
    decreases |es|
  {
    if es != [] {
      var e, w1 := es[0], Step(w, es[0]);
      StepAccounting(w, e, id);
      OnlyLastPastEnd(w1, es[1..], id);
      if Paid(w, e, id) {
        if PastEnd(w.payments[id], e.attempt.now) {
          LastAtOnce(w, e, es[1..], id);
        }
        OneMoreTime(w.payments[id], w1.payments[id], e.attempt.now, Successes(w1, es[1..], id));
      }
    }
  }

  lemma {:induction false} NoPaymentAfterTheEnd(w: World, es: seq<Event>, id: nat)
    requires id < |w.payments| && Terminal(w.payments[id])
    ensures Successes(w, es, id) == []
    decreases |es|
  {
    if es != [] {
      StepAccounting(w, es[0], id);
      NoPaymentAfterTheEnd(Step(w, es[0]), es[1..], id);
    }
  }

  // ---------------------------------------------------------------- the ledger under the scheduler

  /** The ledger operation of one step, if any. */
  function OpsOf(w: World, e: Event): seq<Ledger.Op> {
    match e
    case Bank(op) => [op]
    case Process(id, a) =>
      if id >= |w.payments| || !Due(w.payments[id], a.now) then []
      else
        (match PlanFor(w.db, w.payments[id], a.vendors)
         case GiveUp => []
         case Miss(op) => [op]
         case Pay(op) => if AfterSuccess(w.payments[id], a.now).Some? then [op] else [])
    case _ => []
  }

  function LedgerOps(w: World, es: seq<Event>): seq<Ledger.Op>
    decreases |es|
  {
    if es == [] then [] else OpsOf(w, es[0]) + LedgerOps(Step(w, es[0]), es[1..])
  }

  lemma StepIsLedgerRun(w: World, e: Event, rest: seq<Ledger.Op>)
    ensures Ledger.Run(w.db, OpsOf(w, e) + rest) == Ledger.Run(Step(w, e).db, rest)
  {
    var ops := OpsOf(w, e);
    if ops == [] {
      assert ops + rest == rest;
    } else {
      assert (ops + rest)[0] == ops[0] && (ops + rest)[1..] == rest;
    }
  }

  /** The scheduler only acts on the ledger through ledger operations, so what holds of every ledger run holds here. */
  lemma {:induction false} ScheduleIsLedgerRun(w: World, es: seq<Event>)
    ensures Run(w, es).db == Ledger.Run(w.db, LedgerOps(w, es))
    decreases |es|
  {
    if es != [] {
      ScheduleIsLedgerRun(Step(w, es[0]), es[1..]);
      StepIsLedgerRun(w, es[0], LedgerOps(Step(w, es[0]), es[1..]));
    }
  }

  lemma {:induction false} OpsAreSane(w: World, es: seq<Event>)
    requires AllKept(w) && forall e :: e in es && e.Bank? ==> Books.Sane(e.op)
    ensures forall op :: op in LedgerOps(w, es) ==> Books.Sane(op)
    decreases |es|
  {
    if es != [] {
      StepKept(w, es[0]);
      OpsAreSane(Step(w, es[0]), es[1..]);
      assert es[0] in es;
    }
  }

  /** Scheduled payments keep the books: no balance goes negative, and every balance agrees with its rows. */
  lemma SchedulerKeepsBooks(w: World, es: seq<Event>, account: int)
    requires AllKept(w) && Books.NonNegative(w.db) && Books.MainsExist(w.db) && account in w.db.accounts
    requires forall e :: e in es && e.Bank? ==> Books.Sane(e.op)
    ensures var db := Run(w, es).db;
      && Books.NonNegative(db) && account in db.accounts
      && Books.OpeningBalance(db, account) == Books.OpeningBalance(w.db, account)
  {
    ScheduleIsLedgerRun(w, es);
    OpsAreSane(w, es);
    Books.NeverNegative(w.db, LedgerOps(w, es));
    Books.BalanceAgreesWithRows(w.db, LedgerOps(w, es), account);
  }

  /** One step keeps the books in order, whatever the scheduler does. */
  lemma StepInOrder(opening: Ledger.Db, w: World, e: Event)
    requires AllKept(w) && Books.InOrder(opening, w.db) && Books.NonNegative(w.db) && (e.Bank? ==> Books.Sane(e.op))
    ensures var w1 := Step(w, e);
      AllKept(w1) && Books.InOrder(opening, w1.db) && Books.NonNegative(w1.db)
  {
    StepKept(w, e);
    StepIsLedgerRun(w, e, []);
    var ops := OpsOf(w, e);
    assert ops + [] == ops;
    if ops != [] {
      assert ops[1..] == [];
      assert Ledger.Run(w.db, ops) == Ledger.Step(w.db, ops[0]).0;
      Books.StepInOrder(opening, w.db, ops[0]);
    }
  }
}
