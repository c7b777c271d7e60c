/**
 Whose money an operation of the bank moves, told by the owners of the accounts: who pays, who is paid, how much, and
 which request is accepted.
 */
module Ownership {
  import opened Wrappers
  import opened BankLedger
  import opened BankBooks

  /** A user's main account is the user's own. */
  ghost predicate MainsOwned(db: Db) {
    forall u :: u in db.mainOf ==> db.mainOf[u] in db.accounts && db.accounts[db.mainOf[u]].user == u
  }

  /** The account a user pays from: the own account the user named, or the main one if none was named. */
  predicate PaysFrom(db: Db, user: int, named: Option<int>, a: int) {
    && a in db.accounts && db.accounts[a].user == user
    && if named.Some? && named.value != 0 then a == named.value else user in db.mainOf && db.mainOf[user] == a
  }

  /** The account a user is paid on: the main one. */
  predicate PaidOn(db: Db, user: int, a: int) {
    user in db.mainOf && db.mainOf[user] == a && a in db.accounts
  }

  /** The money goes from one account to another, where there is one; owners and all other balances stay. */
  ghost predicate Goes(db: Db, db': Db, from: Option<int>, to: Option<int>, cents: int) {
    && SameBank(db, db')
    && forall a :: a in db.accounts ==>
         db'.accounts[a].balance ==
           db.accounts[a].balance + (if to == Some(a) then cents else 0) - (if from == Some(a) then cents else 0)
  }

  // ---------------------------------------------------------------- one operation

  /** The accounts a user may pay from and be paid on are found. */
  lemma FoundExactly(db: Db, user: int, named: Option<int>, a: int)
    requires MainsOwned(db)
    ensures FindAccount(db, user, named) == Some(a) <==> PaysFrom(db, user, named, a)
    ensures FindAccount(db, user, None) == Some(a) <==> PaidOn(db, user, a)
  {
  }

  /** An internal transfer is accepted exactly between two different own accounts with the money for it. */
  lemma InternalExactly(db: Db, user: int, from: int, to: int, amount: int)
    ensures var (db', outcome) := Step(db, Internal(user, from, to, amount));
      && (outcome.Done? <==>
            && amount > 0 && from != to && from in db.accounts && to in db.accounts
            && db.accounts[from].user == user == db.accounts[to].user && amount <= db.accounts[from].balance)
      && (outcome.Done? ==> Goes(db, db', Some(from), Some(to), amount))
      && (outcome.Rejected? ==> db' == db)
      && (outcome.Rejected? && amount > 0 && from != to ==>
            (outcome.status == 400 <==>
               && from in db.accounts && to in db.accounts
               && db.accounts[from].user == user == db.accounts[to].user))
  {
  }

  /** An accepted transfer between users takes the amount from the account the payer named, or the payer's main
      account, and brings it to the recipient's main account: two legs under one new parent, one event each. */
  lemma TransferPays(db: Db, p: P2P, v: Vendors) returns (from: int, to: int)
    requires MainsOwned(db) && p.recipient in db.users && Step(db, Pay(p, v)).1.Done?
    ensures var db' := Step(db, Pay(p, v)).0;
      && PaysFrom(db, p.user, p.source, from) && PaidOn(db, db.users[p.recipient], to)
      && Goes(db, db', Some(from), Some(to), p.amount)
      && db'.rows == db.rows + [
           Row(db.nextId + 1, db.nextId, from, -p.amount, "p2p", "transfer", "DEBIT", "cleared"),
           Row(db.nextId + 2, db.nextId, to, p.amount, "p2p", "transfer", "CREDIT", "cleared")]
      && db'.outbox == db.outbox + [
           TxEvent("p2p.sender", db.nextId + 1), ActivityEvent(p.user),
           TxEvent("p2p.recipient", db.nextId + 2), ActivityEvent(db.users[p.recipient])]
  {
    from := FindAccount(db, p.user, p.source).value;
    to := FindAccount(db, db.users[p.recipient], None).value;
    FoundExactly(db, p.user, p.source, from);
    FoundExactly(db, db.users[p.recipient], None, to);
  }

  /** The request a transfer names can be paid by it. */
  predicate Payable(db: Db, id: int, email: string, amount: int) {
    && id in db.requests && db.requests[id].target == email && db.requests[id].amount <= amount
    && (db.requests[id].status == "pending_target" || db.requests[id].status == "pending_requester")
  }

  /** When a transfer to a user is accepted: another user with a main account, a request, if one is named, that it can
      pay, and an own account with the money. */
  lemma TransferAcceptedExactly(db: Db, p: P2P, v: Vendors)
    requires MainsOwned(db) && p.recipient in db.users
    ensures var (db', outcome) := Step(db, Pay(p, v));
      && (outcome.Done? <==>
            && 0 < p.amount && p.recipient != p.email
            && (p.requestId.Some? && p.requestId.value != 0 ==> Payable(db, p.requestId.value, p.email, p.amount))
            && (exists from :: PaysFrom(db, p.user, p.source, from) && p.amount <= db.accounts[from].balance)
            && (exists to :: PaidOn(db, db.users[p.recipient], to)))
      && (outcome.Rejected? ==> db' == db)
  {
    var from, to := FindAccount(db, p.user, p.source), FindAccount(db, db.users[p.recipient], None);
    if from.Some? {
      FoundExactly(db, p.user, p.source, from.value);
    }
    if to.Some? {
      FoundExactly(db, db.users[p.recipient], None, to.value);
    }
    forall a | PaysFrom(db, p.user, p.source, a)
      ensures from == Some(a)
    {
      FoundExactly(db, p.user, p.source, a);
    }
    forall a | PaidOn(db, db.users[p.recipient], a)
      ensures to == Some(a)
    {
      FoundExactly(db, db.users[p.recipient], None, a);
    }
  }

  /** Why a transfer to a user is refused. */
  lemma TransferAnswers(db: Db, p: P2P, v: Vendors)
    requires MainsOwned(db) && p.recipient in db.users && Step(db, Pay(p, v)).1.Rejected?
    ensures var named := p.requestId.Some? && p.requestId.value != 0;
      var payer := exists from :: PaysFrom(db, p.user, p.source, from);
      Step(db, Pay(p, v)).1.status ==
        if p.amount <= 0 then 422
        else if p.recipient == p.email then 400
        else if named && RequestError(db, p.requestId.value, p.email, p.amount).Some?
        then RequestError(db, p.requestId.value, p.email, p.amount).value
        else if payer && db.users[p.recipient] in db.mainOf then 400
        else 404
  {
    var from := FindAccount(db, p.user, p.source);
    if from.Some? {
      FoundExactly(db, p.user, p.source, from.value);
    }
    forall a | PaysFrom(db, p.user, p.source, a)
      ensures from == Some(a)
    {
      FoundExactly(db, p.user, p.source, a);
    }
  }

  /** A payment to a vendor takes the amount from the payer and brings it to no account of the bank. */
  lemma VendorPays(db: Db, p: P2P, v: Vendors) returns (from: int)
    requires MainsOwned(db) && p.recipient !in db.users && Step(db, Pay(p, v)).1.Done?
    ensures var db' := Step(db, Pay(p, v)).0;
      && p.recipient in v.emails && 0 < p.amount && p.subscriberId.Some? && p.subscriberId.value != ""
      && PaysFrom(db, p.user, p.source, from) && p.amount <= db.accounts[from].balance
      && Goes(db, db', Some(from), None, p.amount)
      && db'.rows == db.rows + [
           Row(db.nextId, db.nextId, from, -p.amount, "Bill Pay", "expense", "DEBIT",
               if v.cleared then "cleared" else "failed")]
      && db'.outbox == db.outbox + [TxEvent("vendor.payment", db.nextId), ActivityEvent(p.user)]
  {
    from := FindAccount(db, p.user, p.source).value;
    FoundExactly(db, p.user, p.source, from);
  }

  /** Naming an account that is not one's own, or does not exist, is refused and changes nothing. */
  lemma StrangersAccountIsRefused(db: Db, p: P2P, v: Vendors)
    requires p.source.Some? && p.source.value != 0
    requires p.source.value in db.accounts ==> db.accounts[p.source.value].user != p.user
    ensures Step(db, Pay(p, v)).1.Rejected? && Step(db, Pay(p, v)).0 == db
  {
  }

  /** A top-up or an admin credit brings the amount to the main account of the user it names; one that finds no such
      account changes nothing. */
  lemma CreditPays(db: Db, op: Op, user: int, amount: int)
    requires MainsOwned(db)
    requires match op
      case TopUp(u, cents) => u == user && cents == amount && user in db.users.Values
      case Credit(email, cents, _) => email in db.users && db.users[email] == user && cents == amount > 0
      case _ => false
    ensures var db' := Step(db, op).0;
      if user in db.mainOf then
        && Goes(db, db', None, Some(db.mainOf[user]), amount) && |db'.rows| == |db.rows| + 1
        && var r := db'.rows[|db.rows|];
           && r == Row(db.nextId, db.nextId, db.mainOf[user], amount, if op.TopUp? then "Top-up" else op.category,
                       "deposit", "CREDIT", "cleared")
           && db'.outbox == db.outbox + [
                TxEvent(if op.TopUp? then "deposit.success" else "transaction.created", db.nextId), ActivityEvent(user)]
      else db' == db
  {
  }

  /** An admin credit of nothing or less, or for nobody, is refused. */
  lemma CreditRefusedExactly(db: Db, email: string, amount: int, category: string)
    requires MainsOwned(db)
    ensures var (db', outcome) := Step(db, Credit(email, amount, category));
      && (outcome.Rejected? <==> amount <= 0 || email !in db.users || db.users[email] !in db.mainOf)
      && (outcome.Rejected? ==> db' == db && outcome.status == if amount <= 0 then 422 else 404)
  {
  }

  /** Why a request cannot be paid: it is missing, addressed to somebody else, closed, or for more. */
  lemma RequestErrorExactly(db: Db, id: int, email: string, amount: int)
    ensures RequestError(db, id, email, amount).None? <==> Payable(db, id, email, amount)
    ensures RequestError(db, id, email, amount) == Some(404) <==> id !in db.requests
    ensures RequestError(db, id, email, amount) == Some(403) <==>
      id in db.requests && db.requests[id].target != email
    ensures RequestError(db, id, email, amount).Some? ==> RequestError(db, id, email, amount).value in {400, 403, 404}
  {
  }

  /** A subscription takes 49.00 from the user's main account, or is refused where that has less. */
  lemma SubscriptionPays(db: Db, user: int)
    requires MainsOwned(db) && user in db.users.Values && user in db.mainOf
    ensures var (db', outcome) := Step(db, Subscribe(user));
      && (outcome.Done? <==> 4900 <= db.accounts[db.mainOf[user]].balance)
      && (outcome.Done? ==>
            && Goes(db, db', Some(db.mainOf[user]), None, 4900) && db'.rows == db.rows
            && db'.subscriptions == db.subscriptions + [Subscription(user, 4900)]
            && db'.outbox == db.outbox + [ActivityEvent(user)])
      && (outcome.Rejected? ==> db' == db)
  {
  }

  // ---------------------------------------------------------------- all operations, whole runs

  /** Who asked for an operation that can take money. */
  function Asker(op: Op): Option<int> {
    match op
    case Internal(user, _, _, _) => Some(user)
    case Pay(p, _) => Some(p.user)
    case Subscribe(user) => Some(user)
    case ScheduledVendor(user, _, _, _) => Some(user)
    case ScheduledTransfer(payer, _, _, _, _) => Some(payer)
    case _ => None
  }

  /** The account a scheduled payment is charged to is the payer's. */
  predicate OwnFunds(db: Db, op: Op) {
    match op
    case ScheduledVendor(user, a, _, _) => a in db.accounts ==> db.accounts[a].user == user
    case ScheduledTransfer(payer, a, _, _, _) => a in db.accounts ==> db.accounts[a].user == payer
    case _ => true
  }

  lemma MainsStayOwned(db: Db, db': Db)
    requires MainsOwned(db) && SameBank(db, db')
    ensures MainsOwned(db')
  {
    forall u | u in db'.mainOf
      ensures db'.mainOf[u] in db'.accounts && db'.accounts[db'.mainOf[u]].user == u
    {
      var a := db.mainOf[u];
      assert a in db.accounts && db.accounts[a].user == u;
      assert db'.accounts[a].user == db.accounts[a].user;
    }
  }

  lemma BooksOfOneBank(db: Db, db': Db, a: int, rest: int)
    requires a in db.accounts && Books(db, db', a, rest)
    ensures SameBank(db, db')
  {
  }

  lemma StepSameBank(db: Db, op: Op)
    requires MainsOwned(db)
    ensures SameBank(db, Step(db, op).0) && MainsOwned(Step(db, op).0)
  {
    var db' := Step(db, op).0;
    if a :| a in db.accounts {
      StepBooks(db, op, a);
      BooksOfOneBank(db, db', a, MissOf(op, a) - FeeOf(db, op, a));
    } else {
      NoAccounts(db, op);
    }
    MainsStayOwned(db, db');
  }

  lemma NoAccounts(db: Db, op: Op)
    requires MainsOwned(db) && forall a :: a !in db.accounts
    ensures SameBank(db, Step(db, op).0)
  {
  }

  lemma TransferTakes(db: Db, p: P2P, v: Vendors, a: int)
    requires MainsOwned(db) && a in db.accounts
    ensures SameBank(db, Step(db, Pay(p, v)).0)
    ensures Step(db, Pay(p, v)).0.accounts[a].balance < db.accounts[a].balance ==> db.accounts[a].user == p.user
  {
    StepSameBank(db, Pay(p, v));
    if Step(db, Pay(p, v)).1.Done? {
      if p.recipient in db.users {
        var from, to := TransferPays(db, p, v);
        TransferAcceptedExactly(db, p, v);
      } else {
        var from := VendorPays(db, p, v);
      }
    } else {
      RefusedPaymentChangesNothing(db, p, v);
    }
  }

  /** Only accounts of this user have less than before. */
  ghost predicate OnlyTakenFrom(user: int, db: Db, db': Db) {
    && SameBank(db, db')
    && forall a :: a in db.accounts && db'.accounts[a].balance < db.accounts[a].balance ==> db.accounts[a].user == user
  }

  lemma TransferTakesOnly(db: Db, p: P2P, v: Vendors)
    requires MainsOwned(db)
    ensures OnlyTakenFrom(p.user, db, Step(db, Pay(p, v)).0)
  {
    StepSameBank(db, Pay(p, v));
    forall a | a in db.accounts
      ensures Step(db, Pay(p, v)).0.accounts[a].balance < db.accounts[a].balance ==> db.accounts[a].user == p.user
    {
      TransferTakes(db, p, v, a);
    }
  }

  lemma VendorTakesOnly(db: Db, user: int, amount: int, source: Option<int>, subscriberId: Option<string>,
                        cleared: bool)
    requires MainsOwned(db)
    ensures OnlyTakenFrom(user, db, VendorPayment(db, user, amount, source, subscriberId, cleared).0)
  {
  }

  lemma RefusedPaymentChangesNothing(db: Db, p: P2P, v: Vendors)
    requires Step(db, Pay(p, v)).1.Rejected?
    ensures Step(db, Pay(p, v)).0 == db
  {
  }

  /** Nobody's balance falls by what somebody else asked for. */
  lemma OnlyTheAskerPays(db: Db, op: Op, a: int)
    requires MainsOwned(db) && Sane(op) && OwnFunds(db, op) && a in db.accounts
    ensures a in Step(db, op).0.accounts
    ensures Step(db, op).0.accounts[a].balance < db.accounts[a].balance ==> Asker(op) == Some(db.accounts[a].user)
  {
    StepSameBank(db, op);
    match op
    case Internal(user, from, to, amount) => InternalExactly(db, user, from, to, amount);
    case Pay(p, v) => TransferTakes(db, p, v, a);
    case _ =>
  }

  /** Over any run a balance falls only if its owner asked for an operation of that run. */
  lemma {:induction false} NobodyElsePays(db: Db, ops: seq<Op>, a: int)
    requires MainsOwned(db) && a in db.accounts
    requires forall op :: op in ops ==> Sane(op) && OwnFunds(db, op) && Asker(op) != Some(db.accounts[a].user)
    ensures a in Run(db, ops).accounts && db.accounts[a].balance <= Run(db, ops).accounts[a].balance
    decreases |ops|
  {
    if ops != [] {
      assert ops[0] in ops && forall op :: op in ops[1..] ==> op in ops;
      var db1 := Step(db, ops[0]).0;
      StepSameBank(db, ops[0]);
      OnlyTheAskerPays(db, ops[0], a);
      assert forall op :: op in ops ==> OwnFunds(db1, op) == OwnFunds(db, op);
      NobodyElsePays(db1, ops[1..], a);
    }
  }
}
