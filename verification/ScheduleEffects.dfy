/**
 What an attempt at a scheduled payment does, told by the payment's own terms and the owners of the accounts: who pays
 whom, when it is paid, recorded as failed or given up, and when the schedule is completed.
 */
module ScheduleEffects {
  import opened Wrappers
  import opened Dates
  import opened Schedule
  import opened ScheduleBooks
  import Ledger = BankLedger
  import Books = BankBooks
  import Own = Ownership

  // ---------------------------------------------------------------- one attempt

  /** There is somebody to pay: a user with a main account, or a vendor. */
  predicate CanBePaid(db: Ledger.Db, p: Payment, v: Ledger.Vendors) {
    if p.recipient in db.users then
      db.users[p.recipient] in db.mainOf && db.mainOf[db.users[p.recipient]] in db.accounts
    else p.recipient in v.emails
  }

  /** What a payment made changes in the bank: the payer's account gives the amount, and the recipient's main account
      gets it, if the recipient is a user. */
  ghost predicate Transferred(db: Ledger.Db, db': Ledger.Db, p: Payment, from: int) {
    && Own.PaysFrom(db, p.user, p.funding, from) && p.amount <= db.accounts[from].balance
    && if p.recipient in db.users then
         && db.users[p.recipient] in db.mainOf && db.mainOf[db.users[p.recipient]] in db.accounts
         && var to := db.mainOf[db.users[p.recipient]];
            && Own.Goes(db, db', Some(from), Some(to), p.amount)
            && db'.rows == db.rows + [
                 Ledger.Row(db.nextId + 1, db.nextId, from, -p.amount, "P2P", "transfer", "DEBIT", "cleared"),
                 Ledger.Row(db.nextId + 2, db.nextId, to, p.amount, "P2P", "transfer", "CREDIT", "cleared")]
       else
         && Own.Goes(db, db', Some(from), None, p.amount) && |db'.rows| == |db.rows| + 1
         && var r := db'.rows[|db.rows|];
            r == Ledger.Row(db.nextId, db.nextId, from, -p.amount, "Bill Pay", "expense", "DEBIT", r.status)
  }

  /** A failed attempt is a row on the payer's account and moves no money. */
  ghost predicate Recorded(db: Ledger.Db, db': Ledger.Db, p: Payment, from: int) {
    && Own.PaysFrom(db, p.user, p.funding, from) && db.accounts[from].balance < p.amount
    && db'.accounts == db.accounts
    && db'.rows == db.rows + [
         Ledger.Row(db.nextId, db.nextId, from, -p.amount, "Transfer", "transfer", "DEBIT", "failed")]
  }

  lemma PlanPays(db: Ledger.Db, p: Payment, v: Ledger.Vendors) returns (from: int)
    requires Own.MainsOwned(db) && PlanFor(db, p, v).Pay?
    ensures Transferred(db, Apply(db, PlanFor(db, p, v).op), p, from) && CanBePaid(db, p, v)
    ensures p.user in db.users.Values
  {
    from := Ledger.FindAccount(db, p.user, p.funding).value;
    Own.FoundExactly(db, p.user, p.funding, from);
    if p.recipient in db.users {
      var to := Ledger.FindAccount(db, db.users[p.recipient], None).value;
      Own.FoundExactly(db, db.users[p.recipient], None, to);
    }
  }

  lemma PlanMisses(db: Ledger.Db, p: Payment, v: Ledger.Vendors) returns (from: int)
    requires Own.MainsOwned(db) && PlanFor(db, p, v).Miss?
    ensures Recorded(db, Apply(db, PlanFor(db, p, v).op), p, from) && CanBePaid(db, p, v)
    ensures p.user in db.users.Values
  {
    from := Ledger.FindAccount(db, p.user, p.funding).value;
    Own.FoundExactly(db, p.user, p.funding, from);
  }

  lemma PlanGivesUp(db: Ledger.Db, p: Payment, v: Ledger.Vendors, from: int)
    requires Own.MainsOwned(db) && PlanFor(db, p, v).GiveUp?
    ensures !(p.user in db.users.Values && CanBePaid(db, p, v) && Own.PaysFrom(db, p.user, p.funding, from))
  {
    Own.FoundExactly(db, p.user, p.funding, from);
  }

  /** An attempt that raises the number of payments made has moved the money. */
  ghost predicate MovedIfMade(w: World, w': World, id: nat)
    requires id < |w.payments| == |w'.payments|
  {
    Own.MainsOwned(w.db) && w'.payments[id].made > w.payments[id].made ==>
      exists from :: Transferred(w.db, w'.db, w.payments[id], from)
  }

  lemma AttemptMoves(w: World, id: nat, a: Attempt)
    requires id < |w.payments|
    ensures |ProcessOne(w, id, a).payments| == |w.payments| && MovedIfMade(w, ProcessOne(w, id, a), id)
  {
    if Own.MainsOwned(w.db) && PlanFor(w.db, w.payments[id], a.vendors).Pay? {
      var from := PlanPays(w.db, w.payments[id], a.vendors);
    }
  }

  /** Whenever a step raises the number of payments made, the money has gone from the payer to the recipient. */
  lemma PaidMovesTheMoney(w: World, e: Event, id: nat) returns (from: int)
    requires Own.MainsOwned(w.db) && Made(Step(w, e), id) > Made(w, id)
    ensures e.Process? && e.id == id < |w.payments| && Transferred(w.db, Step(w, e).db, w.payments[id], from)
  {
    from := PlanPays(w.db, w.payments[id], e.attempt.vendors);
  }

  /** Whenever a step raises the number of failed attempts, one has been recorded. */
  lemma MissedIsRecorded(w: World, e: Event, id: nat) returns (from: int)
    requires Own.MainsOwned(w.db) && Retries(Step(w, e), id) > Retries(w, id)
    ensures e.Process? && e.id == id < |w.payments| && Recorded(w.db, Step(w, e).db, w.payments[id], from)
  {
    from := PlanMisses(w.db, w.payments[id], e.attempt.vendors);
  }

  /** A step of the scheduler that makes no payment leaves every balance as it was. */
  lemma UnpaidMovesNothing(w: World, e: Event)
    requires !e.Bank? && (e.Process? ==> Made(Step(w, e), e.id) == Made(w, e.id))
    ensures Step(w, e).db.accounts == w.db.accounts
  {
  }

  /** A due payment is paid exactly when its payer exists and has an account with the money, and there is somebody to
      pay; with too little money it is recorded as failed; otherwise it is given up, and nothing else changes. */
  lemma DuePaymentExactly(w: World, id: nat, a: Attempt)
    requires AllKept(w) && Own.MainsOwned(w.db) && id < |w.payments| && Due(w.payments[id], a.now)
    ensures var p, w1 := w.payments[id], Step(w, Process(id, a));
      var q := w1.payments[id];
      var open := p.user in w.db.users.Values && CanBePaid(w.db, p, a.vendors);
      && (q.made == p.made + 1 <==> open && exists from ::
            Own.PaysFrom(w.db, p.user, p.funding, from) && p.amount <= w.db.accounts[from].balance)
      && (q.retries == p.retries + 1 <==> open && exists from ::
            Own.PaysFrom(w.db, p.user, p.funding, from) && w.db.accounts[from].balance < p.amount)
      && (q.made == p.made && q.retries == p.retries ==>
            w1 == w.(payments := w.payments[id := p.(status := Failed, nextRun := None)]))
  {
    var p := w.payments[id];
    SuccessKept(p, a.now);
    match PlanFor(w.db, p, a.vendors)
    case Pay(_) =>
      var from := PlanPays(w.db, p, a.vendors);
      OnePayer(w.db, p, from);
    case Miss(_) =>
      var from := PlanMisses(w.db, p, a.vendors);
      OnePayer(w.db, p, from);
    case GiveUp =>
      forall from
        ensures !(p.user in w.db.users.Values && CanBePaid(w.db, p, a.vendors)
                  && Own.PaysFrom(w.db, p.user, p.funding, from))
      {
        PlanGivesUp(w.db, p, a.vendors, from);
      }
  }

  lemma OnePayer(db: Ledger.Db, p: Payment, from: int)
    requires Own.PaysFrom(db, p.user, p.funding, from)
    ensures forall a :: Own.PaysFrom(db, p.user, p.funding, a) ==> a == from
  {
  }

  /** A failed attempt is tried again one day after it, the third one ends the schedule. */
  lemma RetriedADayLater(w: World, id: nat, a: Attempt)
    requires AllKept(w) && id < |w.payments| && Due(w.payments[id], a.now)
    requires Retries(Step(w, Process(id, a)), id) > Retries(w, id)
    ensures var p, q := w.payments[id], Step(w, Process(id, a)).payments[id];
      if p.retries == 2 then q.status == Failed && q.nextRun == None
      else q.status == Retrying && q.nextRun.Some? && Instant(q.nextRun.value) == Instant(a.later) + 86_400_000_000
  {
    AddDaysInstant(a.later, 1);
  }

  // ---------------------------------------------------------------- creation and cancellation

  /** A positive amount creates a payment with the terms of the request, active and with nothing made or failed; any
      other one creates nothing. */
  lemma CreatedExactly(w: World, user: int, r: Request, now: Moment)
    ensures var w1 := Step(w, Create(user, r, now));
      && w1.db == w.db
      && (if r.amount > 0 then
            && |w1.payments| == |w.payments| + 1 && w1.payments[..|w.payments|] == w.payments
            && var p := w1.payments[|w.payments|];
               && p.user == user && p.recipient == r.recipient && p.amount == r.amount && p.frequency == r.frequency
               && p.endCondition == r.endCondition && p.endDate == r.endDate && p.target == r.target
               && p.funding == r.funding && p.made == 0 && p.retries == 0 && p.status == Active
               && p.nextRun == CalculateNextRunAt(now, r.frequency, None)
          else w1 == w)
  {
  }

  /** Only the owner cancels, and only a payment that is active or retrying; nothing but its status and next run
      changes. */
  lemma CancelledExactly(w: World, user: int, id: nat)
    ensures var w1 := Step(w, Cancel(user, id));
      w1 == if && id < |w.payments| && w.payments[id].user == user
               && (w.payments[id].status == Active || w.payments[id].status == Retrying)
            then w.(payments := w.payments[id := w.payments[id].(status := Cancelled, nextRun := None)])
            else w
  {
  }

  // ---------------------------------------------------------------- money over whole runs

  /** By how much the attempts at payment `id` change one balance over a run. */
  function Change(w: World, es: seq<Event>, id: nat, a: int): int
    decreases |es|
  {
    if es == [] then 0 else ChangeOf(w, es[0], id, a) + Change(Step(w, es[0]), es[1..], id, a)
  }

  function ChangeOf(w: World, e: Event, id: nat, a: int): int {
    var accounts := Step(w, e).db.accounts;
    if e.Process? && e.id == id && a in w.db.accounts && a in accounts
    then accounts[a].balance - w.db.accounts[a].balance else 0
  }

  /** What one payment brings to an account: the amount to the recipient's main account, from the payer's account. */
  function Share(db: Ledger.Db, p: Payment, a: int): int {
    (if p.recipient in db.users && db.users[p.recipient] in db.mainOf && db.mainOf[db.users[p.recipient]] == a
     then p.amount else 0)
    - (if Own.PaysFrom(db, p.user, p.funding, a) then p.amount else 0)
  }

  function ShareOf(db: Ledger.Db, w: World, id: nat, a: int): int {
    if id < |w.payments| then Share(db, w.payments[id], a) else 0
  }

  lemma StepSameWorld(w: World, e: Event)
    requires Own.MainsOwned(w.db)
    ensures Books.SameBank(w.db, Step(w, e).db) && Own.MainsOwned(Step(w, e).db)
  {
    if e.Bank? {
      Own.StepSameBank(w.db, e.op);
    } else if e.Process? && e.id < |w.payments| && Due(w.payments[e.id], e.attempt.now) {
      var plan := PlanFor(w.db, w.payments[e.id], e.attempt.vendors);
      if !plan.GiveUp? {
        Own.StepSameBank(w.db, plan.op);
      }
    }
  }

  lemma SameShare(db: Ledger.Db, db': Ledger.Db, p: Payment, q: Payment, a: int)
    requires Books.SameBank(db, db') && SameTerms(p, q)
    ensures Share(db', q, a) == Share(db, p, a)
  {
    assert a in db.accounts.Keys <==> a in db'.accounts.Keys;
  }

  lemma StepChange(w: World, e: Event, id: nat, a: int)
    requires Own.MainsOwned(w.db) && a in w.db.accounts
    ensures ChangeOf(w, e, id, a) == if Made(Step(w, e), id) > Made(w, id) then ShareOf(w.db, w, id, a) else 0
  {
    if Made(Step(w, e), id) > Made(w, id) {
      var from := PaidMovesTheMoney(w, e, id);
      OnePayer(w.db, w.payments[id], from);
    } else if e.Process? && e.id == id {
      StepAccounting(w, e, id);
      UnpaidMovesNothing(w, e);
    }
  }

  lemma StepShare(w: World, e: Event, id: nat, a: int, share: int)
    requires Own.MainsOwned(w.db) && a in w.db.accounts
    requires id < |Step(w, e).payments| ==> ShareOf(w.db, Step(w, e), id, a) == share
    ensures ChangeOf(w, e, id, a) + Times(share, Made(w, id)) == Times(share, Made(Step(w, e), id))
  {
    StepAccounting(w, e, id);
    StepChange(w, e, id, a);
    if id < |w.payments| {
      StepSameWorld(w, e);
      SameShare(w.db, w.db, w.payments[id], Step(w, e).payments[id], a);
    }
  }

  lemma {:induction false} ChangeFrom(w: World, es: seq<Event>, id: nat, a: int)
    requires Own.MainsOwned(w.db) && a in w.db.accounts
    ensures var w' := Run(w, es);
      var share := ShareOf(w.db, w', id, a);
      Change(w, es, id, a) + Times(share, Made(w, id)) == Times(share, Made(w', id))
    decreases |es|
  {
    if es != [] {
      var w1 := Step(w, es[0]);
      var w' := Run(w1, es[1..]);
      StepSameWorld(w, es[0]);
      ChangeFrom(w1, es[1..], id, a);
      TermsFixed(w1, es[1..], id);
      if id < |w'.payments| {
        SameShare(w.db, w1.db, w'.payments[id], w'.payments[id], a);
        if id < |w1.payments| {
          SameShare(w.db, w.db, w1.payments[id], w'.payments[id], a);
        }
      }
      StepShare(w, es[0], id, a, ShareOf(w.db, w', id, a));
    }
  }

  /** Over any run, with polls in any order, retries, cancellations and other business of the bank in between, the
      attempts at a payment take its amount times the payments made from the payer's account, bring the same to the main
      account of a recipient who is a user, and change no other balance. */
  lemma PaymentsArrive(db: Ledger.Db, es: seq<Event>, id: nat, a: int)
    requires Own.MainsOwned(db) && a in db.accounts && id < |Run(World(db, []), es).payments|
    ensures var p := Run(World(db, []), es).payments[id];
      var pays := Own.PaysFrom(db, p.user, p.funding, a);
      var paid := p.recipient in db.users && Own.PaidOn(db, db.users[p.recipient], a);
      Change(World(db, []), es, id, a) ==
        if pays == paid then 0 else if paid then p.amount * p.made else -(p.amount * p.made)
  {
    var w := World(db, []);
    var p := Run(w, es).payments[id];
    ChangeFrom(w, es, id, a);
    TimesIsProduct(Share(db, p, a), p.made);
    assert Share(db, p, a) in {0, p.amount, -p.amount};
    assert -p.amount * p.made == -(p.amount * p.made);
  }

  /** A step takes money from an account only if a payment of its owner was due or its owner asked the bank for it. */
  lemma OnlyThePayerPays(w: World, e: Event, a: int)
    requires AllKept(w) && Own.MainsOwned(w.db) && a in w.db.accounts
    requires e.Bank? ==> Books.Sane(e.op) && Own.OwnFunds(w.db, e.op)
    ensures a in Step(w, e).db.accounts
    ensures Step(w, e).db.accounts[a].balance < w.db.accounts[a].balance ==>
      || (e.Bank? && Own.Asker(e.op) == Some(w.db.accounts[a].user))
      || (e.Process? && e.id < |w.payments| && w.payments[e.id].user == w.db.accounts[a].user)
  {
    StepSameWorld(w, e);
    if e.Bank? {
      Own.OnlyTheAskerPays(w.db, e.op, a);
    } else if e.Process? && Made(Step(w, e), e.id) > Made(w, e.id) {
      var from := PaidMovesTheMoney(w, e, e.id);
    } else {
      if e.Process? {
        StepAccounting(w, e, e.id);
      }
      UnpaidMovesNothing(w, e);
    }
  }

  /** Over any run a balance falls only if its owner has a scheduled payment or asked the bank for an operation. */
  lemma {:induction false} NobodyElsePays(w: World, es: seq<Event>, a: int)
    requires AllKept(w) && Own.MainsOwned(w.db) && a in w.db.accounts
    requires forall e :: e in es && e.Bank? ==>
      Books.Sane(e.op) && Own.OwnFunds(w.db, e.op) && Own.Asker(e.op) != Some(w.db.accounts[a].user)
    requires forall p :: p in Run(w, es).payments ==> p.user != w.db.accounts[a].user
    ensures a in Run(w, es).db.accounts && w.db.accounts[a].balance <= Run(w, es).db.accounts[a].balance
    decreases |es|
  {
    if es != [] {
      assert es[0] in es && forall e :: e in es[1..] ==> e in es;
      var w1 := Step(w, es[0]);
      StepSameWorld(w, es[0]);
      StepKept(w, es[0]);
      OnlyThePayerPays(w, es[0], a);
      if es[0].Process? && es[0].id < |w.payments| {
        TermsFixed(w, es, es[0].id);
        assert Run(w, es).payments[es[0].id] in Run(w, es).payments;
      }
      NobodyElsePays(w1, es[1..], a);
    }
  }

  // ---------------------------------------------------------------- the end of a schedule

  /** A payment made completes its schedule exactly when the target is reached or the next run would lie past the end
      date; otherwise it waits for that next run. */
  lemma CompletedExactly(w: World, id: nat, a: Attempt)
    requires AllKept(w) && id < |w.payments| && Due(w.payments[id], a.now)
    requires Made(Step(w, Process(id, a)), id) > Made(w, id)
    ensures var p, q := w.payments[id], Step(w, Process(id, a)).payments[id];
      var next := CalculateNextRunAt(a.now, p.frequency, None);
      && next.Some?
      && (q.status == Completed <==>
            || (p.endCondition == "target" && (p.target.Some? ==> q.made >= p.target.value))
            || (p.endCondition == "date" && p.endDate.Some? && Instant(next.value) > Instant(p.endDate.value)))
      && (if q.status == Completed then q.nextRun == None else q.status == p.status && q.nextRun == next)
  {
    SuccessKept(w.payments[id], a.now);
    NextRunIsLater(a.now, w.payments[id].frequency);
  }

  /** What a completed schedule has been through. */
  predicate HasRunItsCourse(p: Payment) {
    p.status == Completed ==>
      || (p.endCondition == "target" && p.made >= 1 && (p.target.Some? ==> p.made >= p.target.value))
      || (p.endCondition == "date" && p.endDate.Some? && p.made >= 1)
  }

  lemma {:induction false} CoursesRun(w: World, es: seq<Event>)
    requires AllKept(w) && forall p :: p in w.payments ==> HasRunItsCourse(p)
    ensures forall p :: p in Run(w, es).payments ==> HasRunItsCourse(p)
    decreases |es|
  {
    if es != [] {
      StepKept(w, es[0]);
      StepCourse(w, es[0]);
      CoursesRun(Step(w, es[0]), es[1..]);
    }
  }

  lemma StepCourse(w: World, e: Event)
    requires AllKept(w) && forall p :: p in w.payments ==> HasRunItsCourse(p)
    ensures forall p :: p in Step(w, e).payments ==> HasRunItsCourse(p)
  {
    if e.Process? && e.id < |w.payments| && Due(w.payments[e.id], e.attempt.now) {
      SuccessKept(w.payments[e.id], e.attempt.now);
    }
  }

  /** Over any run a schedule is completed only with its target reached, or by its end date after a payment; a target
      of n payments means exactly n. */
  lemma CompletedHasRunItsCourse(db: Ledger.Db, es: seq<Event>, id: nat)
    requires id < |Run(World(db, []), es).payments|
    ensures var p := Run(World(db, []), es).payments[id];
      && HasRunItsCourse(p)
      && (p.status == Completed && p.endCondition == "target" && p.target.Some? && p.target.value >= 1 ==>
            p.made == p.target.value)
  {
    var w' := Run(World(db, []), es);
    CoursesRun(World(db, []), es);
    RunKept(World(db, []), es);
    assert w'.payments[id] in w'.payments && Kept(w'.payments[id]);
  }
}
