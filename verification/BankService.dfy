/**
 The services that move money, updating the tables in place.  Each is one operation of the ledger, and each keeps the
 books of a bank that opened in order.
 */
module BankService {
  import opened Wrappers
  import opened BankLedger
  import opened BankBooks
  import opened Ownership

  class Service {
    const users: map<string, int>
    const mainOf: map<int, int>
    var accounts: map<int, Account>
    var rows: seq<Row>
    var outbox: seq<Event>
    var requests: map<int, PaymentRequest>
    var subscriptions: seq<Subscription>
    var nextId: nat
    ghost const opening: Db

    /** Every balance agrees with its rows, the rows with each other and with the outbox, and nothing is negative. */
    ghost predicate Valid()
      reads this
    {
      InOrder(opening, View()) && NonNegative(View())
    }

    ghost function View(): Db
      reads this
    {
      Db(users, mainOf, accounts, rows, outbox, requests, subscriptions, nextId)
    }

    constructor (db: Db)
      requires MainsExist(db) && Tidy(db) && NonNegative(db)
      ensures View() == db && opening == db && Valid()
    {
      opening := db;
      users, mainOf, accounts, rows, outbox := db.users, db.mainOf, db.accounts, db.rows, db.outbox;
      requests, subscriptions, nextId := db.requests, db.subscriptions, db.nextId;
    }

    method NewId() returns (id: nat)
      modifies this`nextId
      ensures id == old(nextId) && nextId == id + 1
    {
      id := nextId;
      nextId := nextId + 1;
    }

    method AddToBalance(id: int, cents: int)
      requires id in accounts
      modifies this`accounts
      ensures accounts == Add(old(accounts), id, cents)
    {
      accounts := accounts[id := accounts[id].(balance := accounts[id].balance + cents)];
    }

    method EmitTransactionalEvent(user: int, account: int, amount: int, category: string, kind: string, side: string,
                                  status: string, eventType: string, parent: Option<nat>) returns (id: nat)
      modifies this`rows, this`outbox, this`nextId
      ensures View() == Emit(old(View()), user, account, amount, category, kind, side, status, eventType, parent)
      ensures id == old(nextId)
    {
      id := NewId();
      var finalParent := if parent.Some? then parent.value else id;
      rows := rows + [Row(id, finalParent, account, amount, category, kind, side, status)];
      outbox := outbox + [TxEvent(eventType, id)];
      outbox := outbox + [ActivityEvent(user)];
      assert outbox == old(outbox) + [TxEvent(eventType, id), ActivityEvent(user)];
    }

    method GetAccountByUser(user: int, source: Option<int>) returns (id: Option<int>)
      ensures id == FindAccount(View(), user, source)
      ensures id.Some? ==> id.value in accounts
      ensures MainsOwned(View()) ==> forall a :: id == Some(a) <==> PaysFrom(View(), user, source, a)
    {
      if source.Some? && source.value != 0 {
        if source.value in accounts && accounts[source.value].user == user {
          return source;
        }
        return None;
      }
      if user in mainOf && mainOf[user] in accounts {
        return Some(mainOf[user]);
      }
      return None;
    }

    method RecordInternalTransfer(user: int, from: int, to: int, amount: int)
      modifies this`rows, this`outbox, this`nextId
      ensures var parent := old(nextId);
        && rows == old(rows) + [
             Row(parent + 1, parent, from, -amount, "Internal Transfer", "transfer", "DEBIT", "cleared"),
             Row(parent + 2, parent, to, amount, "Internal Transfer", "transfer", "CREDIT", "cleared")]
        && outbox == old(outbox) + [ActivityEvent(user)] && nextId == parent + 3
    {
      var parent := NewId();
      var debitId := NewId();
      var debit := Row(debitId, parent, from, -amount, "Internal Transfer", "transfer", "DEBIT", "cleared");
      rows := rows + [debit];
      var creditId := NewId();
      var credit := Row(creditId, parent, to, amount, "Internal Transfer", "transfer", "CREDIT", "cleared");
      rows := rows + [credit];
      outbox := outbox + [ActivityEvent(user)];
      assert rows == old(rows) + [debit, credit];
    }

    method ExecuteInternalTransfer(user: int, from: int, to: int, amount: int) returns (outcome: Outcome<()>)
      requires Valid()
      modifies this
      ensures (View(), outcome) == InternalTransfer(old(View()), user, from, to, amount)
      ensures Valid()
    {
      StepInOrder(opening, View(), Internal(user, from, to, amount));
      if amount <= 0 {
        return Rejected(400);
      }
      if from == to {
        return Rejected(400);
      }
      if from !in accounts || to !in accounts || accounts[from].user != user || accounts[to].user != user {
        return Rejected(404);
      }
      if accounts[from].balance < amount {
        return Rejected(400);
      }
      AddToBalance(from, -amount);
      AddToBalance(to, amount);
      RecordInternalTransfer(user, from, to, amount);
      return Done(());
    }

    /** The checks, the debit and its row. */
    method DebitForVendor(user: int, amount: int, source: Option<int>, subscriberId: Option<string>, cleared: bool)
      returns (outcome: Outcome<()>)
      modifies this
      ensures (View(), outcome) == VendorPayment(old(View()), user, amount, source, subscriberId, cleared)
    {
      if subscriberId.None? || subscriberId.value == "" {
        return Rejected(400);
      }
      var id := GetAccountByUser(user, source);
      if id.None? {
        return Rejected(404);
      }
      if accounts[id.value].balance < amount {
        return Rejected(400);
      }
      AddToBalance(id.value, -amount);
      var _ := EmitTransactionalEvent(user, id.value, -amount, "Bill Pay", "expense", "DEBIT",
                                      VendorStatus(cleared), "vendor.payment", None);
      return Done(());
    }

    method HandleVendorPayment(user: int, amount: int, source: Option<int>, subscriberId: Option<string>, cleared: bool)
      returns (outcome: Outcome<()>)
      requires Valid()
      modifies this
      ensures (View(), outcome) == VendorPayment(old(View()), user, amount, source, subscriberId, cleared)
      ensures Valid()
      ensures old(MainsOwned(View())) ==> OnlyTakenFrom(user, old(View()), View())
    {
      VendorInOrder(opening, View(), user, amount, source, subscriberId, cleared);
      if MainsOwned(View()) {
        VendorTakesOnly(View(), user, amount, source, subscriberId, cleared);
      }
      outcome := DebitForVendor(user, amount, source, subscriberId, cleared);
    }

    method ExecuteP2PBalances(from: int, to: int, amount: int) returns (outcome: Outcome<()>)
      modifies this`accounts
      ensures outcome ==
        if from !in old(accounts) || to !in old(accounts) then Rejected(404)
        else if old(accounts)[from].balance < amount then Rejected(400)
        else Done(())
      ensures accounts == if outcome.Done? then Add(Add(old(accounts), from, -amount), to, amount) else old(accounts)
    {
      if from !in accounts || to !in accounts {
        return Rejected(404);
      }
      if accounts[from].balance < amount {
        return Rejected(400);
      }
      AddToBalance(from, -amount);
      AddToBalance(to, amount);
      return Done(());
    }

    method ValidatePaymentRequest(id: int, email: string, amount: int) returns (error: Option<nat>)
      ensures error == RequestError(View(), id, email, amount)
    {
      if id !in requests {
        return Some(404);
      }
      if requests[id].target != email {
        return Some(403);
      }
      if requests[id].status !in OPEN_REQUEST {
        return Some(400);
      }
      if amount < requests[id].amount {
        return Some(400);
      }
      return None;
    }

    /** Both legs of a transfer between users, under one parent. */
    method EmitBothLegs(payer: int, from: int, payee: int, to: int, amount: int, category: string)
      modifies this`rows, this`outbox, this`nextId
      ensures View() == EmitPair(old(View()), payer, from, payee, to, amount, category)
    {
      var parent := NewId();
      var _ := EmitTransactionalEvent(payer, from, -amount, category, "transfer", "DEBIT", "cleared", "p2p.sender",
          Some(parent));
      var _ := EmitTransactionalEvent(payee, to, amount, category, "transfer", "CREDIT", "cleared", "p2p.recipient",
          Some(parent));
    }

    method TransferToUser(p: P2P, payee: int) returns (outcome: Outcome<()>)
      requires HasRequest(p) ==> p.requestId.value in requests
      modifies this
      ensures (View(), outcome) == PayToUser(old(View()), p, payee)
    {
      var from := GetAccountByUser(p.user, p.source);
      if from.None? {
        return Rejected(404);
      }
      var to := GetAccountByUser(payee, None);
      if to.None? {
        return Rejected(404);
      }
      outcome := ExecuteP2PBalances(from.value, to.value, p.amount);
      if outcome.Rejected? {
        return;
      }
      EmitBothLegs(p.user, from.value, payee, to.value, p.amount, "p2p");
      if HasRequest(p) {
        var id := p.requestId.value;
        requests := requests[id := requests[id].(status := "paid")];
      }
    }

    method ProcessP2PTransfer(p: P2P, v: Vendors) returns (outcome: Outcome<()>)
      requires Valid()
      modifies this
      ensures (View(), outcome) == ProcessP2P(old(View()), p, v)
      ensures Valid()
      ensures old(MainsOwned(View())) ==> OnlyTakenFrom(p.user, old(View()), View())
    {
      StepInOrder(opening, View(), Pay(p, v));
      if MainsOwned(View()) {
        TransferTakesOnly(View(), p, v);
      }
      if p.amount <= 0 {
        return Rejected(422);
      }
      if p.recipient == p.email {
        return Rejected(400);
      }
      if p.recipient !in users {
        if p.recipient in v.emails {
          outcome := HandleVendorPayment(p.user, p.amount, p.source, p.subscriberId, v.cleared);
          return;
        }
        return Rejected(404);
      }
      if HasRequest(p) {
        var error := ValidatePaymentRequest(p.requestId.value, p.email, p.amount);
        if error.Some? {
          return Rejected(error.value);
        }
      }
      outcome := TransferToUser(p, users[p.recipient]);
    }

    method AtomicTopUpBalance(user: int, amount: int)
      requires Valid()
      modifies this
      ensures View() == AtomicTopUp(old(View()), user, amount).0
      ensures InOrder(opening, View()) && (amount >= 0 ==> Valid())
    {
      StepInOrder(opening, View(), TopUp(user, amount));
      if user !in users.Values {
        return;
      }
      var id := GetAccountByUser(user, None);
      if id.None? {
        return;
      }
      AddToBalance(id.value, amount);
      var _ := EmitTransactionalEvent(user, id.value, amount, "Top-up", "deposit", "CREDIT", "cleared",
          "deposit.success", None);
    }

    method HandleSubscription(user: int) returns (outcome: Outcome<()>)
      requires Valid()
      modifies this
      ensures (View(), outcome) == StartSubscription(old(View()), user)
      ensures Valid()
    {
      StepInOrder(opening, View(), Subscribe(user));
      if user !in users.Values {
        return Done(());
      }
      var id := GetAccountByUser(user, None);
      if id.Some? {
        if accounts[id.value].balance < SUBSCRIPTION_BLACK_PRICE {
          return Rejected(500);
        }
        AddToBalance(id.value, -SUBSCRIPTION_BLACK_PRICE);
      }
      subscriptions := subscriptions + [Subscription(user, SUBSCRIPTION_BLACK_PRICE)];
      outbox := outbox + [ActivityEvent(user)];
      return Done(());
    }

    method AdminCreditAccount(recipient: string, amount: int, category: string) returns (outcome: Outcome<()>)
      requires Valid()
      modifies this
      ensures (View(), outcome) == AdminCredit(old(View()), recipient, amount, category)
      ensures Valid()
    {
      StepInOrder(opening, View(), Credit(recipient, amount, category));
      if amount <= 0 {
        return Rejected(422);
      }
      if recipient !in users {
        return Rejected(404);
      }
      var user := users[recipient];
      var id := GetAccountByUser(user, None);
      if id.None? {
        return Rejected(404);
      }
      AddToBalance(id.value, amount);
      var _ := EmitTransactionalEvent(user, id.value, amount, category, "deposit", "CREDIT", "cleared",
          "transaction.created", None);
      return Done(());
    }
  }
}
