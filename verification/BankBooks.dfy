/**
 Double entry over runs of the bank ledger: balances against rows, the two legs of a transfer, no negative
 balance, and one outbox event per emitted row.
 */
module BankBooks {
  import opened Wrappers
  import opened BankLedger

  // ---------------------------------------------------------------- folds

  /** A failed scheduled attempt: a row that records a debit which did not happen. */
  predicate IsFailedAttempt(r: Row) {
    r.transactionType == "transfer" && r.status == "failed"
  }

  predicate IsLeg(r: Row) {
    r.transactionType == "transfer" && r.status != "failed"
  }

  function RowSum(rows: seq<Row>, a: int): int {
    if rows == [] then 0
    else
      var r := rows[|rows| - 1];
      RowSum(rows[..|rows| - 1], a) + (if r.account == a then r.amount else 0)
  }

  function FailedSum(rows: seq<Row>, a: int): int {
    if rows == [] then 0
    else
      var r := rows[|rows| - 1];
      FailedSum(rows[..|rows| - 1], a) + (if r.account == a && IsFailedAttempt(r) then r.amount else 0)
  }

  /** The subscription fees taken from one account. */
  function FeeSum(subs: seq<Subscription>, mainOf: map<int, int>, a: int): int {
    if subs == [] then 0
    else
      var s := subs[|subs| - 1];
      FeeSum(subs[..|subs| - 1], mainOf, a) + (if s.user in mainOf && mainOf[s.user] == a then s.amount else 0)
  }

  function ParentCount(rows: seq<Row>, p: nat): nat {
    if rows == [] then 0
    else ParentCount(rows[..|rows| - 1], p) + (if rows[|rows| - 1].parent == p then 1 else 0)
  }

  function ParentSum(rows: seq<Row>, p: nat): int {
    if rows == [] then 0
    else ParentSum(rows[..|rows| - 1], p) + (if rows[|rows| - 1].parent == p then rows[|rows| - 1].amount else 0)
  }

  function EventCount(events: seq<Event>, id: nat): nat {
    if events == [] then 0
    else
      var e := events[|events| - 1];
      EventCount(events[..|events| - 1], id) + (if e.TxEvent? && e.txId == id then 1 else 0)
  }

  lemma AppendRow(rows: seq<Row>, r: Row, a: int, p: nat)
    ensures RowSum(rows + [r], a) == RowSum(rows, a) + (if r.account == a then r.amount else 0)
    ensures FailedSum(rows + [r], a) ==
        FailedSum(rows, a) + (if r.account == a && IsFailedAttempt(r) then r.amount else 0)
    ensures ParentCount(rows + [r], p) == ParentCount(rows, p) + (if r.parent == p then 1 else 0)
    ensures ParentSum(rows + [r], p) == ParentSum(rows, p) + (if r.parent == p then r.amount else 0)
  {
    assert (rows + [r])[..|rows|] == rows;
  }

  lemma AppendEvent(events: seq<Event>, e: Event, id: nat)
    ensures EventCount(events + [e], id) == EventCount(events, id) + (if e.TxEvent? && e.txId == id then 1 else 0)
  {
    assert (events + [e])[..|events|] == events;
  }

  // ---------------------------------------------------------------- balances against rows

  /** What is left of a balance once its rows, except failed attempts, and its fees are taken back. */
  function OpeningBalance(db: Db, a: int): int
    requires a in db.accounts
  {
    db.accounts[a].balance - RowSum(db.rows, a) + FailedSum(db.rows, a) + FeeSum(db.subscriptions, db.mainOf, a)
  }

  /** Main accounts exist; accounts, owners and users are what they were. */
  ghost predicate SameBank(db: Db, db': Db) {
    && db'.accounts.Keys == db.accounts.Keys && db'.mainOf == db.mainOf && db'.users == db.users
    && forall a :: a in db.accounts ==> db'.accounts[a].user == db.accounts[a].user
  }

  /** The opening balance stays, and the balance moves by the new rows plus `rest`. */
  ghost predicate Books(db: Db, db': Db, a: int, rest: int)
    requires a in db.accounts
  {
    && SameBank(db, db') && OpeningBalance(db', a) == OpeningBalance(db, a)
    && db'.accounts[a].balance - db.accounts[a].balance == RowSum(db'.rows, a) - RowSum(db.rows, a) + rest
  }

  /** A row added together with its change of balance. */
  lemma OneRowBooks(db: Db, db': Db, r: Row, a: int)
    requires a in db.accounts && SameBank(db, db') && db'.subscriptions == db.subscriptions && db'.rows == db.rows + [r]
    requires db'.accounts[a].balance ==
        db.accounts[a].balance + (if r.account == a && !IsFailedAttempt(r) then r.amount else 0)
    ensures Books(db, db', a, if r.account == a && IsFailedAttempt(r) then -r.amount else 0)
  {
    AppendRow(db.rows, r, a, 0);
  }

  lemma EmitBooks(db: Db, user: int, account: int, amount: int, category: string, kind: string, side: string,
                  status: string, eventType: string, parent: Option<nat>, a: int)
    requires a in db.accounts && account in db.accounts && !(kind == "transfer" && status == "failed")
    ensures Books(db, Emit(db.(accounts := Add(db.accounts, account, amount)),
                           user, account, amount, category, kind, side, status, eventType, parent), a, 0)
  {
    var db' := Emit(db.(accounts := Add(db.accounts, account, amount)),
                    user, account, amount, category, kind, side, status, eventType, parent);
    OneRowBooks(db, db', db'.rows[|db.rows|], a);
  }

  /** Two legs added together with their changes of balance. */
  lemma TwoRowBooks(db: Db, db': Db, r1: Row, r2: Row, a: int)
    requires a in db.accounts && SameBank(db, db') && db'.subscriptions == db.subscriptions
    requires db'.rows == db.rows + [r1] + [r2]
    requires IsLeg(r1) && IsLeg(r2)
    requires db'.accounts[a].balance ==
      db.accounts[a].balance + (if r1.account == a then r1.amount else 0) + (if r2.account == a then r2.amount else 0)
    ensures Books(db, db', a, 0)
  {
    AppendRow(db.rows, r1, a, 0);
    AppendRow(db.rows + [r1], r2, a, 0);
  }

  lemma EmitPairBooks(db: Db, payer: int, from: int, payee: int, to: int, amount: int, category: string, a: int)
    requires a in db.accounts && from in db.accounts && to in db.accounts
    ensures Books(db, EmitPair(db.(accounts := Add(Add(db.accounts, from, -amount), to, amount)),
                               payer, from, payee, to, amount, category), a, 0)
  {
    var p := db.nextId;
    var r1 := Row(p + 1, p, from, -amount, category, "transfer", "DEBIT", "cleared");
    var r2 := Row(p + 2, p, to, amount, category, "transfer", "CREDIT", "cleared");
    assert IsLeg(r1) && IsLeg(r2);
    var db' := EmitPair(db.(accounts := Add(Add(db.accounts, from, -amount), to, amount)), payer, from, payee, to,
        amount, category);
    assert db'.rows == db.rows + [r1] + [r2];
    TwoRowBooks(db, db', r1, r2, a);
  }

  lemma InternalBooks(db: Db, user: int, from: int, to: int, amount: int, a: int)
    requires a in db.accounts
    ensures Books(db, InternalTransfer(db, user, from, to, amount).0, a, 0)
  {
    if MoveInternal(db.accounts, user, from, to, amount).Done? {
      var db' := InternalTransfer(db, user, from, to, amount).0;
      var r1, r2 := db'.rows[|db.rows|], db'.rows[|db.rows| + 1];
      assert db'.rows == db.rows + [r1] + [r2];
      TwoRowBooks(db, db', r1, r2, a);
    }
  }

  lemma ExpenseBooks(db: Db, user: int, account: int, amount: int, category: string, status: string,
      eventType: string, a: int)
    requires a in db.accounts && account in db.accounts
    ensures Books(db, Emit(db.(accounts := Add(db.accounts, account, amount)),
                           user, account, amount, category, "expense", "DEBIT", status, eventType, None), a, 0)
  {
    assert "expense"[0] != "transfer"[0];
    EmitBooks(db, user, account, amount, category, "expense", "DEBIT", status, eventType, None, a);
  }

  lemma PayVendorBooks(db: Db, user: int, id: int, amount: int, cleared: bool, a: int)
    requires a in db.accounts
    ensures Books(db, PayVendor(db, user, id, amount, cleared).0, a, 0)
  {
    if Debit(db.accounts, id, amount).Done? {
      ExpenseBooks(db, user, id, -amount, "Bill Pay", VendorStatus(cleared), "vendor.payment", a);
    }
  }

  lemma VendorBooks(db: Db, user: int, amount: int, source: Option<int>, subscriberId: Option<string>, cleared: bool,
      a: int)
    requires a in db.accounts
    ensures Books(db, VendorPayment(db, user, amount, source, subscriberId, cleared).0, a, 0)
  {
    var id := FindAccount(db, user, source);
    if id.Some? {
      PayVendorBooks(db, user, id.value, amount, cleared, a);
    }
  }

  /** A vendor's refusal changes the recorded status and nothing else: the money is debited all the same. */
  lemma RefusedPaymentStillDebits(db: Db, user: int, amount: int, source: Option<int>, subscriberId: Option<string>)
    ensures var (paid, outcome) := VendorPayment(db, user, amount, source, subscriberId, true);
      var (refused, answer) := VendorPayment(db, user, amount, source, subscriberId, false);
      && answer == outcome && refused.accounts == paid.accounts
      && (answer.Done? ==>
            var id := FindAccount(db, user, source).value;
            && refused.accounts[id].balance == db.accounts[id].balance - amount
            && |refused.rows| == |db.rows| + 1 && refused.rows[|db.rows|].amount == -amount
            && refused.rows[|db.rows|].status == "failed"
            && refused.(rows := []) == paid.(rows := [])
            && paid.rows == db.rows + [refused.rows[|db.rows|].(status := "cleared")])
  {
  }

  lemma P2PBooks(db: Db, p: P2P, v: Vendors, a: int)
    requires a in db.accounts
    ensures Books(db, ProcessP2P(db, p, v).0, a, 0)
  {
    var db' := ProcessP2P(db, p, v).0;
    if db' != db {
      if p.recipient in db.users {
        var payee := db.users[p.recipient];
        var from := FindAccount(db, p.user, p.source).value;
        var to := FindAccount(db, payee, None).value;
        EmitPairBooks(db, p.user, from, payee, to, p.amount, "p2p", a);
      } else {
        VendorBooks(db, p.user, p.amount, p.source, p.subscriberId, v.cleared, a);
      }
    }
  }

  /** The fee an operation takes from an account without a row: that of a subscription which its owner starts. */
  function FeeOf(db: Db, op: Op, a: int): int {
    match op
    case Subscribe(user) =>
      if user in db.users.Values && user in db.mainOf && db.mainOf[user] == a && Step(db, op).1.Done?
      then SUBSCRIPTION_BLACK_PRICE else 0
    case _ => 0
  }

  /** The amount of a failed attempt an operation records on an account without moving it. */
  function MissOf(op: Op, a: int): int {
    match op
    case ScheduledFailure(_, id, amount) => if id == a then amount else 0
    case _ => 0
  }

  function FeesTaken(db: Db, ops: seq<Op>, a: int): int
    decreases |ops|
  {
    if ops == [] then 0 else FeeOf(db, ops[0], a) + FeesTaken(Step(db, ops[0]).0, ops[1..], a)
  }

  function MissesRecorded(ops: seq<Op>, a: int): int {
    if ops == [] then 0 else MissOf(ops[0], a) + MissesRecorded(ops[1..], a)
  }

  lemma SubscribeBooks(db: Db, user: int, a: int)
    requires a in db.accounts && forall u :: u in db.mainOf ==> db.mainOf[u] in db.accounts
    ensures Books(db, StartSubscription(db, user).0, a, -FeeOf(db, Subscribe(user), a))
  {
    var sub := Subscription(user, SUBSCRIPTION_BLACK_PRICE);
    assert (db.subscriptions + [sub])[..|db.subscriptions|] == db.subscriptions;
    var mine := user in db.mainOf && db.mainOf[user] == a;
    assert FeeSum(db.subscriptions + [sub], db.mainOf, a) ==
           FeeSum(db.subscriptions, db.mainOf, a) + if mine then sub.amount else 0;
  }

  lemma CreditBooks(db: Db, op: Op, a: int)
    requires a in db.accounts && (op.TopUp? || op.Credit?)
    ensures Books(db, Step(db, op).0, a, 0)
  {
    match op
    case TopUp(user, amount) =>
      var id := FindAccount(db, user, None);
      if id.Some? {
        EmitBooks(db, user, id.value, amount, "Top-up", "deposit", "CREDIT", "cleared", "deposit.success", None, a);
      }
    case Credit(recipient, amount, category) =>
      if recipient in db.users {
        var user := db.users[recipient];
        var id := FindAccount(db, user, None);
        if id.Some? {
          EmitBooks(db, user, id.value, amount, category, "deposit", "CREDIT", "cleared", "transaction.created", None,
              a);
        }
      }
  }

  lemma ScheduledTransferBooks(db: Db, payer: int, from: int, payee: int, to: int, amount: int, a: int)
    requires a in db.accounts
    ensures Books(db, TransferOnSchedule(db, payer, from, payee, to, amount).0, a, 0)
  {
    if from in db.accounts && to in db.accounts {
      EmitPairBooks(db, payer, from, payee, to, amount, "P2P", a);
    }
  }

  lemma ScheduledFailureBooks(db: Db, user: int, id: int, amount: int, a: int)
    requires a in db.accounts
    ensures Books(db, FailOnSchedule(db, user, id, amount).0, a, MissOf(ScheduledFailure(user, id, amount), a))
  {
    if id in db.accounts {
      var r := Row(db.nextId, db.nextId, id, -amount, "Transfer", "transfer", "DEBIT", "failed");
      OneRowBooks(db, FailOnSchedule(db, user, id, amount).0, r, a);
    }
  }

  ghost predicate MainsExist(db: Db) {
    forall u :: u in db.mainOf ==> db.mainOf[u] in db.accounts
  }

  lemma StepBooks(db: Db, op: Op, a: int)
    requires a in db.accounts && MainsExist(db)
    ensures Books(db, Step(db, op).0, a, MissOf(op, a) - FeeOf(db, op, a))
  {
    match op
    case Internal(user, from, to, amount) => InternalBooks(db, user, from, to, amount, a);
    case Pay(p, v) => P2PBooks(db, p, v, a);
    case Subscribe(user) => SubscribeBooks(db, user, a);
    case TopUp(_, _) => CreditBooks(db, op, a);
    case Credit(_, _, _) => CreditBooks(db, op, a);
    case ScheduledVendor(user, id, amount, cleared) => PayVendorBooks(db, user, id, amount, cleared, a);
    case ScheduledTransfer(payer, from, payee, to, amount) =>
      ScheduledTransferBooks(db, payer, from, payee, to, amount, a);
    case ScheduledFailure(user, id, amount) => ScheduledFailureBooks(db, user, id, amount, a);
  }

  /** Balance agrees with history, exactly.  Over any run, accepted or rejected, a balance is its opening balance
      plus its transaction rows, apart from the rows of failed scheduled attempts, which record a debit that did
      not happen, and the subscription fees, which have no row. */
  lemma {:induction false} BalanceAgreesWithRows(db: Db, ops: seq<Op>, a: int)
    requires a in db.accounts && MainsExist(db)
    ensures Books(db, Run(db, ops), a, MissesRecorded(ops, a) - FeesTaken(db, ops, a))
    decreases |ops|
  {
    if ops != [] {
      StepBooks(db, ops[0], a);
      BalanceAgreesWithRows(Step(db, ops[0]).0, ops[1..], a);
    }
  }

  /** Over any run the rows alone explain a balance if and only if the fees of the subscriptions started for it equal
      the failed attempts recorded on it. */
  lemma RowsExplainBalanceExactly(db: Db, ops: seq<Op>, a: int)
    requires a in db.accounts && MainsExist(db)
    ensures a in Run(db, ops).accounts
    ensures Run(db, ops).accounts[a].balance - db.accounts[a].balance ==
        RowSum(Run(db, ops).rows, a) - RowSum(db.rows, a)
      <==> FeesTaken(db, ops, a) == MissesRecorded(ops, a)
  {
    BalanceAgreesWithRows(db, ops, a);
  }

  predicate IsOrdinary(op: Op) {
    !op.Subscribe? && !op.ScheduledFailure?
  }

  /** In particular they do in every run without subscriptions and failed scheduled attempts. */
  lemma {:induction false} RowsExplainOrdinaryRuns(db: Db, ops: seq<Op>, a: int)
    requires a in db.accounts && MainsExist(db) && forall op :: op in ops ==> IsOrdinary(op)
    ensures a in Run(db, ops).accounts
    ensures Run(db, ops).accounts[a].balance - db.accounts[a].balance ==
        RowSum(Run(db, ops).rows, a) - RowSum(db.rows, a)
    decreases |ops|
  {
    if ops != [] {
      assert IsOrdinary(ops[0]);
      StepBooks(db, ops[0], a);
      RowsExplainOrdinaryRuns(Step(db, ops[0]).0, ops[1..], a);
    }
  }

  /** They do not where a subscription starts: the fee is missing from the rows. */
  lemma SubscriptionIsNotInTheRows(db: Db, user: int)
    requires MainsExist(db) && user in db.users.Values && user in db.mainOf
    requires db.accounts[db.mainOf[user]].balance >= SUBSCRIPTION_BLACK_PRICE
    ensures var a := db.mainOf[user];
      var db' := Run(db, [Subscribe(user)]);
      && db'.rows == db.rows && a in db'.accounts
      && db'.accounts[a].balance == db.accounts[a].balance - SUBSCRIPTION_BLACK_PRICE
  {
    assert [Subscribe(user)][1..] == [];
    assert Run(db, [Subscribe(user)]) == Step(db, Subscribe(user)).0;
  }

  // ---------------------------------------------------------------- no negative balance

  ghost predicate NonNegative(db: Db) {
    forall a :: a in db.accounts ==> db.accounts[a].balance >= 0
  }

  /** The gateway tops up by what was paid, and scheduled amounts were validated when they were created. */
  predicate Sane(op: Op) {
    match op
    case TopUp(_, amount) => amount >= 0
    case ScheduledVendor(_, _, amount, _) => amount > 0
    case ScheduledTransfer(_, _, _, _, amount) => amount > 0
    case ScheduledFailure(_, _, amount) => amount > 0
    case _ => true
  }

  lemma StepNonNegative(db: Db, op: Op)
    requires NonNegative(db) && Sane(op)
    ensures NonNegative(Step(db, op).0)
  {
  }

  /** No run makes a balance negative. */
  lemma {:induction false} NeverNegative(db: Db, ops: seq<Op>)
    requires NonNegative(db) && forall op :: op in ops ==> Sane(op)
    ensures NonNegative(Run(db, ops))
    decreases |ops|
  {
    if ops != [] {
      assert ops[0] in ops;
      StepNonNegative(db, ops[0]);
      NeverNegative(Step(db, ops[0]).0, ops[1..]);
    }
  }

  // ---------------------------------------------------------------- the two legs of a transfer

  predicate IsInternal(r: Row) {
    r.transactionType == "transfer" && r.category == "Internal Transfer"
  }

  ghost predicate IdsBelow(db: Db) {
    && (forall r :: r in db.rows ==> r.id < db.nextId && r.parent < db.nextId)
    && (forall e :: e in db.outbox && e.TxEvent? ==> e.txId < db.nextId)
  }

  /** A leg has one counterpart and the two sum to zero; any other row stands alone. */
  ghost predicate Matched(rows: seq<Row>, r: Row) {
    if IsLeg(r) then ParentCount(rows, r.parent) == 2 && ParentSum(rows, r.parent) == 0
    else r.parent == r.id && ParentCount(rows, r.parent) == 1
  }

  /** A row has one outbox event of its own, except the rows of internal transfers, which have none. */
  ghost predicate Announced(events: seq<Event>, r: Row) {
    EventCount(events, r.id) == if IsInternal(r) then 0 else 1
  }

  ghost predicate Tidy(db: Db) {
    IdsBelow(db) && forall r :: r in db.rows ==> Matched(db.rows, r) && Announced(db.outbox, r)
  }

  lemma {:induction false} FreshParent(rows: seq<Row>, p: nat)
    requires forall r :: r in rows ==> r.parent < p
    ensures ParentCount(rows, p) == 0 && ParentSum(rows, p) == 0
  {
    if rows != [] {
      assert rows[|rows| - 1] in rows;
      assert forall r :: r in rows[..|rows| - 1] ==> r in rows;
      FreshParent(rows[..|rows| - 1], p);
    }
  }

  lemma {:induction false} FreshEvent(events: seq<Event>, id: nat)
    requires forall e :: e in events && e.TxEvent? ==> e.txId < id
    ensures EventCount(events, id) == 0
  {
    if events != [] {
      assert events[|events| - 1] in events;
      assert forall e :: e in events[..|events| - 1] ==> e in events;
      FreshEvent(events[..|events| - 1], id);
    }
  }

  lemma NoRowTidy(db: Db, db': Db)
    requires Tidy(db) && db'.rows == db.rows && db'.nextId == db.nextId
    requires db'.outbox == db.outbox || exists user :: db'.outbox == db.outbox + [ActivityEvent(user)]
    ensures Tidy(db')
  {
    if db'.outbox != db.outbox {
      var user :| db'.outbox == db.outbox + [ActivityEvent(user)];
      forall r | r in db'.rows
        ensures Announced(db'.outbox, r)
      {
        assert Announced(db.outbox, r);
        AppendEvent(db.outbox, ActivityEvent(user), r.id);
      }
    }
    assert forall r :: r in db'.rows ==> Matched(db.rows, r) && Announced(db.outbox, r);
  }

  lemma SingleTidy(db: Db, db': Db, r: Row, kind: string, user: int)
    requires Tidy(db) && r.id == r.parent == db.nextId && !IsLeg(r) && !IsInternal(r)
    requires db'.rows == db.rows + [r] && db'.nextId == db.nextId + 1
    requires db'.outbox == db.outbox + [TxEvent(kind, r.id), ActivityEvent(user)]
    ensures Tidy(db')
  {
    FreshParent(db.rows, r.id);
    FreshEvent(db.outbox, r.id);
    assert db'.outbox == db.outbox + [TxEvent(kind, r.id)] + [ActivityEvent(user)];
    forall q | q in db'.rows
      ensures Matched(db'.rows, q) && Announced(db'.outbox, q)
    {
      AppendRow(db.rows, r, 0, q.parent);
      AppendEvent(db.outbox, TxEvent(kind, r.id), q.id);
      AppendEvent(db.outbox + [TxEvent(kind, r.id)], ActivityEvent(user), q.id);
      if q != r {
        assert q in db.rows;
        assert Matched(db.rows, q) && Announced(db.outbox, q);
      }
    }
  }

  /** What is announced about a pair: one event per leg, or none. */
  ghost predicate PairEvents(events: seq<Event>, db: Db, internal: bool) {
    && (forall id: nat :: id < db.nextId ==> EventCount(db.outbox + events, id) == EventCount(db.outbox, id))
    && (forall id: nat :: db.nextId < id <= db.nextId + 2 ==>
        EventCount(db.outbox + events, id) == if internal then 0 else 1)
    && (forall e :: e in events && e.TxEvent? ==> e.txId <= db.nextId + 2)
  }

  lemma TwoMoreRows(rows: seq<Row>, r1: Row, r2: Row, p: nat)
    requires r1.parent == r2.parent && r1.amount + r2.amount == 0
    ensures ParentCount(rows + [r1] + [r2], p) == ParentCount(rows, p) + (if p == r1.parent then 2 else 0)
    ensures ParentSum(rows + [r1] + [r2], p) == ParentSum(rows, p)
  {
    AppendRow(rows, r1, 0, p);
    AppendRow(rows + [r1], r2, 0, p);
  }

  lemma PairTidy(db: Db, db': Db, r1: Row, r2: Row, events: seq<Event>)
    requires Tidy(db) && r1.parent == r2.parent == db.nextId && r1.id == db.nextId + 1 && r2.id == db.nextId + 2
    requires IsLeg(r1) && IsLeg(r2) && r1.amount + r2.amount == 0 && IsInternal(r1) == IsInternal(r2)
    requires db'.rows == db.rows + [r1] + [r2] && db'.nextId == db.nextId + 3
    requires db'.outbox == db.outbox + events && PairEvents(events, db, IsInternal(r1))
    ensures Tidy(db')
  {
    FreshParent(db.rows, db.nextId);
    FreshEvent(db.outbox, db.nextId + 1);
    FreshEvent(db.outbox, db.nextId + 2);
    forall q | q in db'.rows
      ensures Matched(db'.rows, q) && Announced(db'.outbox, q)
    {
      TwoMoreRows(db.rows, r1, r2, q.parent);
      if q != r1 && q != r2 {
        assert q in db.rows;
        assert Matched(db.rows, q) && Announced(db.outbox, q);
      }
    }
  }

  lemma InternalTidy(db: Db, user: int, from: int, to: int, amount: int)
    requires Tidy(db)
    ensures Tidy(InternalTransfer(db, user, from, to, amount).0)
  {
    var db' := InternalTransfer(db, user, from, to, amount).0;
    if db' != db {
      var r1, r2 := db'.rows[|db.rows|], db'.rows[|db.rows| + 1];
      assert db'.rows == db.rows + [r1] + [r2];
      var events := [ActivityEvent(user)];
      forall id
        ensures EventCount(db.outbox + events, id) == EventCount(db.outbox, id)
      {
        AppendEvent(db.outbox, ActivityEvent(user), id);
      }
      FreshEvent(db.outbox, db.nextId + 1);
      FreshEvent(db.outbox, db.nextId + 2);
      PairTidy(db, db', r1, r2, events);
    }
  }

  /** The four events of a pair announce each of its rows once and no other row. */
  lemma PairEventCount(before: seq<Event>, e1: Event, e2: Event, payer: int, payee: int, id: nat)
    requires e1.TxEvent? && e2.TxEvent?
    ensures EventCount(before + [e1, ActivityEvent(payer), e2, ActivityEvent(payee)], id) ==
      EventCount(before, id) + (if id == e1.txId then 1 else 0) + (if id == e2.txId then 1 else 0)
  {
    var b1 := before + [e1];
    var b2 := b1 + [ActivityEvent(payer)];
    var b3 := b2 + [e2];
    AppendEvent(before, e1, id);
    AppendEvent(b1, ActivityEvent(payer), id);
    AppendEvent(b2, e2, id);
    AppendEvent(b3, ActivityEvent(payee), id);
    assert before + [e1, ActivityEvent(payer), e2, ActivityEvent(payee)] == b3 + [ActivityEvent(payee)];
  }

  lemma EmitPairTidy(db: Db, payer: int, from: int, payee: int, to: int, amount: int, category: string)
    requires Tidy(db) && category != "Internal Transfer"
    ensures Tidy(EmitPair(db, payer, from, payee, to, amount, category))
  {
    var db' := EmitPair(db, payer, from, payee, to, amount, category);
    var r1, r2 := db'.rows[|db.rows|], db'.rows[|db.rows| + 1];
    assert db'.rows == db.rows + [r1] + [r2];
    var e1, e2 := TxEvent("p2p.sender", db.nextId + 1), TxEvent("p2p.recipient", db.nextId + 2);
    var events := [e1, ActivityEvent(payer), e2, ActivityEvent(payee)];
    assert db'.outbox == db.outbox + events;
    assert PairEvents(events, db, false) by {
      forall id: nat
        ensures EventCount(db.outbox + events, id) ==
          EventCount(db.outbox, id) + (if id == db.nextId + 1 then 1 else 0) + (if id == db.nextId + 2 then 1 else 0)
      {
        PairEventCount(db.outbox, e1, e2, payer, payee, id);
      }
      FreshEvent(db.outbox, db.nextId + 1);
      FreshEvent(db.outbox, db.nextId + 2);
    }
    PairTidy(db, db', r1, r2, events);
  }

  lemma EmitTidy(db: Db, user: int, account: int, amount: int, category: string, kind: string, side: string,
                 status: string, eventType: string)
    requires Tidy(db) && (kind != "transfer" || (status == "failed" && category != "Internal Transfer"))
    ensures Tidy(Emit(db, user, account, amount, category, kind, side, status, eventType, None))
  {
    var db' := Emit(db, user, account, amount, category, kind, side, status, eventType, None);
    SingleTidy(db, db', db'.rows[|db.rows|], eventType, user);
  }

  lemma AccountsTidy(db: Db, accounts: map<int, Account>)
    requires Tidy(db)
    ensures Tidy(db.(accounts := accounts))
  {
    NoRowTidy(db, db.(accounts := accounts));
  }

  lemma ExpenseTidy(db: Db, user: int, account: int, amount: int, category: string, status: string, eventType: string)
    requires Tidy(db)
    ensures Tidy(Emit(db, user, account, amount, category, "expense", "DEBIT", status, eventType, None))
  {
    assert "expense"[0] != "transfer"[0];
    EmitTidy(db, user, account, amount, category, "expense", "DEBIT", status, eventType);
  }

  lemma PayVendorTidy(db: Db, user: int, id: int, amount: int, cleared: bool)
    requires Tidy(db)
    ensures Tidy(PayVendor(db, user, id, amount, cleared).0)
  {
    match Debit(db.accounts, id, amount)
    case Rejected(_) =>
    case Done(accounts) =>
      AccountsTidy(db, accounts);
      ExpenseTidy(db.(accounts := accounts), user, id, -amount, "Bill Pay", VendorStatus(cleared), "vendor.payment");
  }

  lemma VendorTidy(db: Db, user: int, amount: int, source: Option<int>, subscriberId: Option<string>, cleared: bool)
    requires Tidy(db)
    ensures Tidy(VendorPayment(db, user, amount, source, subscriberId, cleared).0)
  {
    var id := FindAccount(db, user, source);
    if id.Some? {
      PayVendorTidy(db, user, id.value, amount, cleared);
    }
  }

  lemma P2PTidy(db: Db, p: P2P, v: Vendors)
    requires Tidy(db)
    ensures Tidy(ProcessP2P(db, p, v).0)
  {
    var db' := ProcessP2P(db, p, v).0;
    if db' != db {
      if p.recipient in db.users {
        var payee := db.users[p.recipient];
        var from := FindAccount(db, p.user, p.source).value;
        var to := FindAccount(db, payee, None).value;
        var d1 := db.(accounts := Add(Add(db.accounts, from, -p.amount), to, p.amount));
        NoRowTidy(db, d1);
        EmitPairTidy(d1, p.user, from, payee, to, p.amount, "p2p");
      } else {
        VendorTidy(db, p.user, p.amount, p.source, p.subscriberId, v.cleared);
      }
    }
  }

  lemma CreditTidy(db: Db, op: Op)
    requires Tidy(db) && (op.TopUp? || op.Credit?)
    ensures Tidy(Step(db, op).0)
  {
    var db' := Step(db, op).0;
    if db' != db {
      var user := if op.TopUp? then op.user else db.users[op.recipient];
      var id := FindAccount(db, user, None).value;
      var d1 := db.(accounts := Add(db.accounts, id, op.amount));
      NoRowTidy(db, d1);
      if op.TopUp? {
        EmitTidy(d1, user, id, op.amount, "Top-up", "deposit", "CREDIT", "cleared", "deposit.success");
      } else {
        EmitTidy(d1, user, id, op.amount, op.category, "deposit", "CREDIT", "cleared", "transaction.created");
      }
    }
  }

  lemma ScheduledTransferTidy(db: Db, payer: int, from: int, payee: int, to: int, amount: int)
    requires Tidy(db)
    ensures Tidy(TransferOnSchedule(db, payer, from, payee, to, amount).0)
  {
    if to in db.accounts && Debit(db.accounts, from, amount).Done? {
      var d1 := db.(accounts := Add(Add(db.accounts, from, -amount), to, amount));
      NoRowTidy(db, d1);
      EmitPairTidy(d1, payer, from, payee, to, amount, "P2P");
    }
  }

  lemma ScheduledFailureTidy(db: Db, user: int, id: int, amount: int)
    requires Tidy(db)
    ensures Tidy(FailOnSchedule(db, user, id, amount).0)
  {
    if id in db.accounts {
      EmitTidy(db, user, id, -amount, "Transfer", "transfer", "DEBIT", "failed", "transfer.failed");
    }
  }

  lemma StepTidy(db: Db, op: Op)
    requires Tidy(db)
    ensures Tidy(Step(db, op).0)
  {
    match op
    case Internal(user, from, to, amount) => InternalTidy(db, user, from, to, amount);
    case Pay(p, v) => P2PTidy(db, p, v);
    case Subscribe(user) => NoRowTidy(db, Step(db, op).0);
    case TopUp(_, _) => CreditTidy(db, op);
    case Credit(_, _, _) => CreditTidy(db, op);
    case ScheduledVendor(user, id, amount, cleared) => PayVendorTidy(db, user, id, amount, cleared);
    case ScheduledTransfer(payer, from, payee, to, amount) => ScheduledTransferTidy(db, payer, from, payee, to, amount);
    case ScheduledFailure(user, id, amount) => ScheduledFailureTidy(db, user, id, amount);
  }

  /** Double entry over runs: every transfer leg has exactly one counterpart under its parent and the two sum to
      zero, every other row is alone, and every row but those of internal transfers has exactly one outbox event. */
  lemma {:induction false} DoubleEntry(db: Db, ops: seq<Op>)
    requires Tidy(db)
    ensures Tidy(Run(db, ops))
    decreases |ops|
  {
    if ops != [] {
      StepTidy(db, ops[0]);
      DoubleEntry(Step(db, ops[0]).0, ops[1..]);
    }
  }

  // ---------------------------------------------------------------- books in order

  /** What a bank that opened as `opening` keeps: every balance is its opening balance plus its rows, less failed
      attempts and fees; rows pair up and are announced; nothing is negative. */
  ghost predicate InOrder(opening: Db, db: Db) {
    && SameBank(opening, db) && MainsExist(db) && Tidy(db)
    && forall a :: a in db.accounts ==> OpeningBalance(db, a) == OpeningBalance(opening, a)
  }

  lemma StepInOrder(opening: Db, db: Db, op: Op)
    requires InOrder(opening, db)
    ensures InOrder(opening, Step(db, op).0)
    ensures NonNegative(db) && Sane(op) ==> NonNegative(Step(db, op).0)
  {
    var db' := Step(db, op).0;
    StepTidy(db, op);
    forall a | a in db.accounts
      ensures SameBank(db, db') && OpeningBalance(db', a) == OpeningBalance(db, a)
    {
      StepBooks(db, op, a);
    }
    if db.accounts.Keys == {} {
      NobodyToMove(db, op);
    }
    if NonNegative(db) && Sane(op) {
      StepNonNegative(db, op);
    }
  }

  /** Without accounts the tables of accounts and users stay as they are. */
  lemma NobodyToMove(db: Db, op: Op)
    requires db.accounts.Keys == {}
    ensures SameBank(db, Step(db, op).0)
  {
  }

  lemma VendorInOrder(opening: Db, db: Db, user: int, amount: int, source: Option<int>, subscriberId: Option<string>,
                      cleared: bool)
    requires InOrder(opening, db)
    ensures InOrder(opening, VendorPayment(db, user, amount, source, subscriberId, cleared).0)
    ensures NonNegative(db) ==> NonNegative(VendorPayment(db, user, amount, source, subscriberId, cleared).0)
  {
    VendorTidy(db, user, amount, source, subscriberId, cleared);
    forall a | a in db.accounts
      ensures Books(db, VendorPayment(db, user, amount, source, subscriberId, cleared).0, a, 0)
    {
      VendorBooks(db, user, amount, source, subscriberId, cleared, a);
    }
  }

  // ---------------------------------------------------------------- payment requests

  lemma StepKeepsPaid(db: Db, op: Op, id: int)
    requires id in db.requests && db.requests[id].status == "paid"
    ensures id in Step(db, op).0.requests && Step(db, op).0.requests[id].status == "paid"
  {
  }

  lemma {:induction false} StaysPaid(db: Db, ops: seq<Op>, id: int)
    requires id in db.requests && db.requests[id].status == "paid"
    ensures id in Run(db, ops).requests && Run(db, ops).requests[id].status == "paid" && Run(db, ops).users == db.users
    decreases |ops|
  {
    if ops != [] {
      StepKeepsPaid(db, ops[0], id);
      assert Step(db, ops[0]).0.users == db.users;
      StaysPaid(Step(db, ops[0]).0, ops[1..], id);
    }
  }

  /** A request is paid at most once.  A payment that names it takes an open request addressed to the payer, at no less
      than its amount, and marks that one paid; after any run, every further payment that names it is rejected without
      effect. */
  lemma PaidOnce(db: Db, p: P2P, v: Vendors, ops: seq<Op>, again: P2P, v': Vendors)
    requires HasRequest(p) && p.recipient in db.users && ProcessP2P(db, p, v).1.Done?
    requires HasRequest(again) && again.requestId == p.requestId && again.recipient in db.users
    ensures var id := p.requestId.value;
      && id in db.requests && db.requests[id].status in OPEN_REQUEST && db.requests[id].target == p.email
      && p.amount >= db.requests[id].amount
      && ProcessP2P(db, p, v).0.requests == db.requests[id := db.requests[id].(status := "paid")]
    ensures var later := Run(ProcessP2P(db, p, v).0, ops);
      && ProcessP2P(later, again, v').1.Rejected? && ProcessP2P(later, again, v').0 == later
  {
    var paid := ProcessP2P(db, p, v).0;
    assert paid.users == db.users;
    StaysPaid(paid, ops, p.requestId.value);
  }
}
