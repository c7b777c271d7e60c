/**
 The polling worker and the two endpoints, updating the payments and the bank's tables in place.
 */
module ScheduleWorker {
  import opened Wrappers
  import opened Dates
  import opened Schedule
  import Ledger = BankLedger
  import Books = BankBooks
  import opened BankService
  import ScheduleBooks
  import opened ScheduleEffects

  /** The positions of the due payments, in order. */
  function DueIds(payments: seq<Payment>, now: Moment): (ids: seq<nat>)
    ensures forall i :: 0 <= i < |ids| ==> ids[i] < |payments| && Due(payments[ids[i]], now)
    ensures forall id: nat :: id < |payments| && Due(payments[id], now) ==> id in ids
    ensures forall i, j :: 0 <= i < j < |ids| ==> ids[i] < ids[j]
  {
    if payments == [] then []
    else
      var last := |payments| - 1;
      DueIds(payments[..last], now) + if Due(payments[last], now) then [last] else []
  }

  /** One poll: an attempt for each selected payment. */
  function Poll(ids: seq<nat>, attempts: seq<Attempt>): seq<Event>
    requires forall i :: 0 <= i < |ids| ==> ids[i] < |attempts|
  {
    if ids == [] then []
    else
      var last := ids[|ids| - 1];
      Poll(ids[..|ids| - 1], attempts) + [Process(last, attempts[last])]
  }

  lemma {:induction false} RunAppend(w: World, es: seq<Event>, e: Event)
    ensures Run(w, es + [e]) == Step(Run(w, es), e)
    decreases |es|
  {
    if es == [] {
      assert [e][1..] == [];
    } else {
      assert (es + [e])[1..] == es[1..] + [e];
      RunAppend(Step(w, es[0]), es[1..], e);
    }
  }

  lemma PollOneMore(w: World, ids: seq<nat>, i: nat, attempts: seq<Attempt>)
    requires i < |ids| && forall k :: 0 <= k < |ids| ==> ids[k] < |attempts|
    ensures var w1 := Run(w, Poll(ids[..i], attempts));
      var a := attempts[ids[i]];
      ids[i] < |w1.payments| && Due(w1.payments[ids[i]], a.now) ==>
        Run(w, Poll(ids[..i + 1], attempts)) == ProcessOne(w1, ids[i], a)
  {
    assert ids[..i + 1][..i] == ids[..i] && ids[..i + 1][i] == ids[i];
    RunAppend(w, Poll(ids[..i], attempts), Process(ids[i], attempts[ids[i]]));
  }

  lemma OnlyThatPayment(w: World, id: nat, a: Attempt)
    requires id < |w.payments|
    ensures |ProcessOne(w, id, a).payments| == |w.payments|
    ensures forall k :: 0 <= k < |w.payments| && k != id ==> ProcessOne(w, id, a).payments[k] == w.payments[k]
  {
  }

  class Worker {
    const bank: Service
    var payments: seq<Payment>

    /** Every payment keeps its terms and bounds, and the bank's books are in order. */
    ghost predicate Valid()
      reads this, bank
    {
      bank.Valid() && ScheduleBooks.AllKept(View())
    }

    ghost function View(): World
      reads this, bank
    {
      World(bank.View(), payments)
    }

    constructor (bank: Service)
      requires bank.Valid()
      ensures this.bank == bank && payments == [] && Valid()
    {
      this.bank, payments := bank, [];
    }

    method CreateScheduledPayment(user: int, r: Request, now: Moment) returns (outcome: Outcome<nat>)
      requires Valid()
      modifies this`payments
      ensures (View(), outcome) == CreatePayment(old(View()), user, r, now)
      ensures Valid()
    {
      ScheduleBooks.StepKept(View(), Create(user, r, now));
      if r.amount <= 0 {
        return Rejected(422);
      }
      var nextRun := CalculateNextRunAt(now, r.frequency, None);
      var payment := Payment(user, r.recipient, r.amount, r.frequency, r.endCondition, r.endDate, r.target, r.funding,
                             0, 0, Active, nextRun);
      payments := payments + [payment];
      return Done(|payments| - 1);
    }

    method CancelScheduledPayment(user: int, id: nat) returns (outcome: Outcome<()>)
      requires Valid()
      modifies this`payments
      ensures (View(), outcome) == CancelPayment(old(View()), user, id)
      ensures Valid()
    {
      ScheduleBooks.StepKept(View(), Cancel(user, id));
      if id >= |payments| || payments[id].user != user {
        return Rejected(404);
      }
      if payments[id].status in {Completed, Failed, Cancelled} {
        return Rejected(400);
      }
      payments := payments[id := payments[id].(status := Cancelled)];
      payments := payments[id := payments[id].(nextRun := None)];
      assert payments == old(payments)[id := Stop(old(payments)[id], Cancelled)];
      return Done(());
    }

    method SetStopped(id: nat, status: Status)
      requires id < |payments|
      modifies this`payments
      ensures payments == old(payments)[id := Stop(old(payments)[id], status)]
    {
      payments := payments[id := payments[id].(status := status, nextRun := None)];
    }

    /** Counts the payment and updates its schedule; raises where a missing next run is compared with the end date. */
    method UpdateSchedule(id: nat, now: Moment) returns (raised: bool)
      requires id < |payments|
      modifies this`payments
      ensures raised <==> AfterSuccess(old(payments)[id], now).None?
      ensures !raised ==> payments == old(payments)[id := AfterSuccess(old(payments)[id], now).value]
    {
      payments := payments[id := payments[id].(made := payments[id].made + 1)];
      var p := payments[id];
      var target := if p.target.Some? then p.target.value else 0;
      if p.frequency == "One-time" || (p.endCondition == "target" && p.made >= target) {
        SetStopped(id, Completed);
      } else {
        var next := CalculateNextRunAt(now, p.frequency, None);
        payments := payments[id := p.(nextRun := next)];
        if p.endCondition == "date" && p.endDate.Some? {
          if next.None? {
            return true;
          }
          if Instant(next.value) > Instant(p.endDate.value) {
            SetStopped(id, Completed);
          }
        }
      }
      return false;
    }

    method HandleFail(id: nat, account: int, later: Moment)
      requires id < |payments| && account in bank.accounts
      modifies this`payments, bank
      ensures var p := old(payments)[id];
        View() == World(Apply(old(View()).db, Ledger.ScheduledFailure(p.user, account, p.amount)),
                        old(payments)[id := AfterFailure(p, later)])
    {
      payments := payments[id := payments[id].(retries := payments[id].retries + 1)];
      var p := payments[id];
      var _ := bank.EmitTransactionalEvent(p.user, account, -p.amount, "Transfer", "transfer", "DEBIT", "failed",
          "transfer.failed", None);
      if p.retries >= 3 {
        SetStopped(id, Failed);
      } else {
        payments := payments[id := p.(status := Retrying, nextRun := Some(AddDays(later, 1)))];
      }
    }

    method PayVendor(p: Payment, account: int, cleared: bool)
      requires account in bank.accounts && bank.accounts[account].balance >= p.amount
      modifies bank
      ensures bank.View() == Apply(old(bank.View()), Ledger.ScheduledVendor(p.user, account, p.amount, cleared))
    {
      bank.AddToBalance(account, -p.amount);
      var _ := bank.EmitTransactionalEvent(p.user, account, -p.amount, "Bill Pay", "expense", "DEBIT",
                                           Ledger.VendorStatus(cleared), "vendor.payment", None);
    }

    method PayUser(p: Payment, from: int, payee: int, to: int)
      requires from in bank.accounts && to in bank.accounts && bank.accounts[from].balance >= p.amount
      modifies bank
      ensures bank.View() == Apply(old(bank.View()), Ledger.ScheduledTransfer(p.user, from, payee, to, p.amount))
    {
      bank.AddToBalance(from, -p.amount);
      bank.AddToBalance(to, p.amount);
      bank.EmitBothLegs(p.user, from, payee, to, p.amount, "P2P");
    }

    method ProcessSinglePayment(id: nat, a: Attempt) returns (raised: bool)
      requires id < |payments|
      modifies this`payments, bank
      ensures raised ==> ProcessOne(old(View()), id, a) == old(View())
      ensures !raised ==> View() == ProcessOne(old(View()), id, a)
      ensures !raised ==> |payments| == |old(payments)| && MovedIfMade(old(View()), View(), id)
    {
      AttemptMoves(View(), id, a);
      var p := payments[id];
      if p.user !in bank.users.Values {
        SetStopped(id, Failed);
        return false;
      }
      var from := bank.GetAccountByUser(p.user, p.funding);
      if from.None? {
        SetStopped(id, Failed);
        return false;
      }
      if p.recipient !in bank.users {
        if p.recipient in a.vendors.emails {
          if bank.accounts[from.value].balance < p.amount {
            HandleFail(id, from.value, a.later);
            return false;
          }
          PayVendor(p, from.value, a.vendors.cleared);
          raised := UpdateSchedule(id, a.now);
          return;
        }
        SetStopped(id, Failed);
        return false;
      }
      var payee := bank.users[p.recipient];
      var to := bank.GetAccountByUser(payee, None);
      if to.None? {
        SetStopped(id, Failed);
        return false;
      }
      if bank.accounts[from.value].balance < p.amount {
        HandleFail(id, from.value, a.later);
        return false;
      }
      PayUser(p, from.value, payee, to.value);
      raised := UpdateSchedule(id, a.now);
    }

    /** One payment of a poll: its commit, or its rollback when it raised. */
    method ProcessAndCommit(id: nat, a: Attempt)
      requires id < |payments| && Due(payments[id], a.now) && Valid()
      modifies this`payments, bank
      ensures View() == ProcessOne(old(View()), id, a)
      ensures Valid() && |payments| == |old(payments)| && MovedIfMade(old(View()), View(), id)
    {
      AttemptMoves(View(), id, a);
      ScheduleBooks.StepInOrder(bank.opening, View(), Process(id, a));
      var accounts, rows, outbox, requests := bank.accounts, bank.rows, bank.outbox, bank.requests;
      var subscriptions, nextId, saved := bank.subscriptions, bank.nextId, payments;
      var raised := ProcessSinglePayment(id, a);
      if raised {
        bank.accounts, bank.rows, bank.outbox, bank.requests := accounts, rows, outbox, requests;
        bank.subscriptions, bank.nextId, payments := subscriptions, nextId, saved;
      }
    }

    method SelectDue(now: Moment) returns (due: seq<nat>)
      ensures due == DueIds(payments, now)
    {
      due := [];
      for i := 0 to |payments|
        invariant due == DueIds(payments[..i], now)
      {
        assert payments[..i + 1][..i] == payments[..i];
        if Due(payments[i], now) {
          due := due + [i];
        }
      }
      assert payments[..|payments|] == payments;
    }

    /** The next selected payment of a poll that began in `start`. */
    method ProcessNext(ghost start: World, due: seq<nat>, i: nat, attempts: seq<Attempt>)
      requires i < |due| && forall k :: 0 <= k < |due| ==> due[k] < |attempts|
      requires Valid() && View() == Run(start, Poll(due[..i], attempts))
      requires due[i] < |payments| && Due(payments[due[i]], attempts[due[i]].now)
      modifies this`payments, bank
      ensures Valid() && View() == Run(start, Poll(due[..i + 1], attempts))
      ensures |payments| == |old(payments)|
      ensures forall k :: 0 <= k < |payments| && k != due[i] ==> payments[k] == old(payments)[k]
    {
      PollOneMore(start, due, i, attempts);
      OnlyThatPayment(View(), due[i], attempts[due[i]]);
      ProcessAndCommit(due[i], attempts[due[i]]);
    }

    /** A poll processes exactly the payments that were due when it started, each once. */
    method ProcessScheduledPayments(now: Moment, attempts: seq<Attempt>)
      requires |attempts| == |payments| && forall a :: a in attempts ==> a.now == now
      requires Valid()
      modifies this`payments, bank
      ensures View() == Run(old(View()), Poll(DueIds(old(payments), now), attempts))
      ensures Valid()
    {
      var due := SelectDue(now);
      for i := 0 to |due|
        invariant Valid() && |payments| == |old(payments)|
        invariant forall j :: i <= j < |due| ==> payments[due[j]] == old(payments)[due[j]]
        invariant View() == Run(old(View()), Poll(due[..i], attempts))
      {
        assert attempts[due[i]] in attempts;
        ProcessNext(old(View()), due, i, attempts);
      }
      assert due[..|due|] == due;
    }
  }
}
