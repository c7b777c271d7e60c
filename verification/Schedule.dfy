/**
 Scheduled payments (backend/scheduled_payments_worker.py and the two endpoints of backend/routers/transfers.py that
 create and cancel them), over the bank ledger.  A payment's id is its position.  The simulator's answers, the poll
 time and the later clock reading of a failed attempt come with the attempt.
 */
module Schedule {
  import opened Wrappers
  import opened Dates
  import Ledger = BankLedger

  datatype Status = Active | Retrying | Completed | Failed | Cancelled

  datatype Payment = Payment(
    user: int, recipient: string, amount: int, frequency: string,
    endCondition: string, endDate: Option<Moment>, target: Option<int>, funding: Option<int>,
    made: nat, retries: nat, status: Status, nextRun: Option<Moment>)

  datatype Request = Request(
    recipient: string, amount: int, frequency: string,
    endCondition: string, endDate: Option<Moment>, target: Option<int>, funding: Option<int>)

  /** One look at a payment: the poll time, the clock when a failure is recorded, and the simulator's answers. */
  datatype Attempt = Attempt(now: Moment, later: Moment, vendors: Ledger.Vendors)

  datatype Event =
    | Create(user: int, request: Request, now: Moment)
    | Cancel(user: int, id: nat)
    | Process(id: nat, attempt: Attempt)
    | Bank(op: Ledger.Op)

  datatype World = World(db: Ledger.Db, payments: seq<Payment>)

  // ---------------------------------------------------------------- one payment

  predicate Terminal(p: Payment) {
    p.status in {Completed, Failed, Cancelled}
  }

  /** The worker's query. */
  predicate Due(p: Payment, now: Moment) {
    p.status in {Active, Retrying} && p.nextRun.Some? && Instant(p.nextRun.value) <= Instant(now)
  }

  function Stop(p: Payment, status: Status): Payment {
    p.(status := status, nextRun := None)
  }

  /** Whether `made` payments are all this schedule asks for. */
  predicate LastOne(p: Payment, made: nat) {
    p.frequency == "One-time" ||
    (p.endCondition == "target" && made >= if p.target.Some? then p.target.value else 0)
  }

  /** A payment made at `now`, and `_update_schedule`.  None: comparing a missing next run with the end date raises. */
  function AfterSuccess(p: Payment, now: Moment): Option<Payment> {
    var paid := p.(made := p.made + 1);
    if LastOne(paid, paid.made) then Some(Stop(paid, Completed))
    else
      var next := CalculateNextRunAt(now, p.frequency, None);
      if p.endCondition == "date" && p.endDate.Some? then
        if next.None? then None
        else if Instant(next.value) > Instant(p.endDate.value) then Some(Stop(paid, Completed))
        else Some(paid.(nextRun := next))
      else Some(paid.(nextRun := next))
  }

  /** `handle_fail`. */
  function AfterFailure(p: Payment, later: Moment): Payment {
    var q := p.(retries := p.retries + 1);
    if q.retries >= 3 then Stop(q, Failed) else q.(status := Retrying, nextRun := Some(AddDays(later, 1)))
  }

  // ---------------------------------------------------------------- what an attempt does

  datatype Plan = GiveUp | Miss(op: Ledger.Op) | Pay(op: Ledger.Op)

  function PlanFor(db: Ledger.Db, p: Payment, v: Ledger.Vendors): Plan {
    if p.user !in db.users.Values then GiveUp
    else
      match Ledger.FindAccount(db, p.user, p.funding)
      case None => GiveUp
      case Some(from) =>
        var miss := Miss(Ledger.ScheduledFailure(p.user, from, p.amount));
        if p.recipient !in db.users then
          if p.recipient !in v.emails then GiveUp
          else if db.accounts[from].balance < p.amount then miss
          else Pay(Ledger.ScheduledVendor(p.user, from, p.amount, v.cleared))
        else
          var payee := db.users[p.recipient];
          match Ledger.FindAccount(db, payee, None)
          case None => GiveUp
          case Some(to) =>
            if db.accounts[from].balance < p.amount then miss
            else Pay(Ledger.ScheduledTransfer(p.user, from, payee, to, p.amount))
  }

  function Apply(db: Ledger.Db, op: Ledger.Op): Ledger.Db {
    Ledger.Step(db, op).0
  }

  /** `process_single_payment` and its commit, or its rollback when it raised. */
  function ProcessOne(w: World, id: nat, a: Attempt): World
    requires id < |w.payments|
  {
    var p := w.payments[id];
    match PlanFor(w.db, p, a.vendors)
    case GiveUp => w.(payments := w.payments[id := Stop(p, Failed)])
    case Miss(op) => World(Apply(w.db, op), w.payments[id := AfterFailure(p, a.later)])
    case Pay(op) =>
      match AfterSuccess(p, a.now)
      case None => w
      case Some(q) => World(Apply(w.db, op), w.payments[id := q])
  }

  function NewPayment(user: int, r: Request, now: Moment): Payment {
    Payment(user, r.recipient, r.amount, r.frequency, r.endCondition, r.endDate, r.target, r.funding,
            0, 0, Active, CalculateNextRunAt(now, r.frequency, None))
  }

  function CreatePayment(w: World, user: int, r: Request, now: Moment): (World, Outcome<nat>) {
    if r.amount <= 0 then (w, Rejected(422))
    else (w.(payments := w.payments + [NewPayment(user, r, now)]), Done(|w.payments|))
  }

  function CancelPayment(w: World, user: int, id: nat): (World, Outcome<()>) {
    if id >= |w.payments| || w.payments[id].user != user then (w, Rejected(404))
    else if Terminal(w.payments[id]) then (w, Rejected(400))
    else (w.(payments := w.payments[id := Stop(w.payments[id], Cancelled)]), Done(()))
  }

  function Step(w: World, e: Event): World {
    match e
    case Create(user, r, now) => CreatePayment(w, user, r, now).0
    case Cancel(user, id) => CancelPayment(w, user, id).0
    case Process(id, a) => if id < |w.payments| && Due(w.payments[id], a.now) then ProcessOne(w, id, a) else w
    case Bank(op) => w.(db := Apply(w.db, op))
  }

  function Run(w: World, es: seq<Event>): World
    decreases |es|
  {
    if es == [] then w else Run(Step(w, es[0]), es[1..])
  }
}
