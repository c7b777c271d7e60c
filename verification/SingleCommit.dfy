/**
 How often a keyed request is applied when its handler commits once (backend/services/deposit_service.py,
 backend/routers/admin.py, backend/routers/transfers.py): the first commit leaves the key pending, so one retry is
 applied again and only then is the key completed.
 */
module SingleCommit {
  import opened Wrappers
  import opened BankLedger
  import opened Idempotency

  predicate OneKey(s: Store, ds: seq<Delivery>, key: string) {
    forall d :: d in ds ==> d.key == key && CommitsOnce(s.db.users, d.op)
  }

  function ServeAll(s: Store, ds: seq<Delivery>, key: string): Store
    requires OneKey(s, ds, key)
    decreases |ds|
  {
    if ds == [] then s
    else
      assert forall d :: d in ds[1..] ==> d in ds;
      ServeAll(ServeOnce(s, ds[0]), ds[1..], key)
  }

  /** The delivery gets as far as its commit unless its key has been completed. */
  predicate Reaches(s: Store, d: Delivery) {
    !d.crash && Commits(s.db, d.op)
  }

  /** The operations that are applied. */
  function Applied(s: Store, ds: seq<Delivery>, key: string): seq<Op>
    requires OneKey(s, ds, key)
    decreases |ds|
  {
    if ds == [] then []
    else
      assert forall d :: d in ds[1..] ==> d in ds;
      (if Reaches(s, ds[0]) && !(key != "" && Completed(s, key)) then [ds[0].op] else [])
      + Applied(ServeOnce(s, ds[0]), ds[1..], key)
  }

  /** The deliveries that reach their commit, but for the key. */
  function Reaching(s: Store, ds: seq<Delivery>, key: string): nat
    requires OneKey(s, ds, key)
    decreases |ds|
  {
    if ds == [] then 0
    else
      assert forall d :: d in ds[1..] ==> d in ds;
      (if Reaches(s, ds[0]) then 1 else 0) + Reaching(ServeOnce(s, ds[0]), ds[1..], key)
  }

  /** How often the key still lets its operation through. */
  function Left(s: Store, key: string): nat {
    if key !in s.keys then 2 else if Completed(s, key) then 0 else 1
  }

  function Min(a: int, b: int): int {
    if a <= b then a else b
  }

  /** What the key holds after a delivery that is applied: pending for its user the first time, and then the answer
      that names the new rows. */
  lemma KeyAfterApplied(s: Store, d: Delivery)
    requires d.key != "" && CommitsOnce(s.db.users, d.op) && Reaches(s, d) && !Completed(s, d.key)
    ensures var s1 := ServeOnce(s, d);
      && d.key in s1.keys
      && (d.key !in s.keys ==> s1.keys[d.key] == KeyRow(d.user, "pending", None))
      && (d.key in s.keys ==>
            && Completed(s1, d.key) && s1.keys[d.key].user == s.keys[d.key].user
            && var body := s1.keys[d.key].body.value;
               if d.op.Subscribe? then body == Started && s1.db.rows == s.db.rows
               else body.Receipt? && |s1.db.rows| > |s.db.rows| && s1.db.rows[|s.db.rows|].parent == body.transactionId)
  {
  }

  /** The ledger is that of the operations applied, one after the other. */
  lemma {:induction false} LedgerOfApplied(s: Store, ds: seq<Delivery>, key: string)
    requires OneKey(s, ds, key)
    ensures ServeAll(s, ds, key).db == BankLedger.Run(s.db, Applied(s, ds, key))
    decreases |ds|
  {
    if ds != [] {
      assert forall d :: d in ds[1..] ==> d in ds;
      var s1 := ServeOnce(s, ds[0]);
      LedgerOfApplied(s1, ds[1..], key);
      var rest := Applied(s1, ds[1..], key);
      assert ([ds[0].op] + rest)[1..] == rest && [] + rest == rest;
    }
  }

  /** A key lets through the first two deliveries that reach their commit and no more. */
  lemma {:induction false} AppliedExactly(s: Store, ds: seq<Delivery>, key: string)
    requires key != "" && OneKey(s, ds, key)
    ensures |Applied(s, ds, key)| == Min(Reaching(s, ds, key), Left(s, key))
    ensures Left(ServeAll(s, ds, key), key) == Left(s, key) - |Applied(s, ds, key)|
    decreases |ds|
  {
    if ds != [] {
      assert forall d :: d in ds[1..] ==> d in ds;
      AppliedExactly(ServeOnce(s, ds[0]), ds[1..], key);
    }
  }

  /** Hence a new key does what it is for, applying its operation at most once, if and only if at most one delivery
      reaches its commit. */
  lemma AtMostOnceExactly(s: Store, ds: seq<Delivery>, key: string)
    requires key != "" && key !in s.keys && OneKey(s, ds, key)
    ensures |Applied(s, ds, key)| <= 1 <==> Reaching(s, ds, key) <= 1
  {
    AppliedExactly(s, ds, key);
  }

  /** The account and the amount of a top-up or an admin credit. */
  predicate Credits(db: Db, op: Op, id: int, amount: int) {
    && (op.TopUp? || op.Credit?) && Commits(db, op) && op.amount == amount
    && FindAccount(db, if op.TopUp? then op.user else db.users[op.recipient], None) == Some(id)
  }

  lemma CreditOnce(db: Db, op: Op, id: int, amount: int)
    requires Credits(db, op, id, amount)
    ensures var db' := Step(db, op).0;
      && id in db.accounts && db'.accounts == Add(db.accounts, id, amount) && Credits(db', op, id, amount)
  {
  }

  function Surviving(ds: seq<Delivery>): nat {
    if ds == [] then 0 else (if ds[0].crash then 0 else 1) + Surviving(ds[1..])
  }

  lemma ServeCredit(s: Store, d: Delivery, id: int, amount: int)
    requires d.key != "" && Credits(s.db, d.op, id, amount)
    ensures var s1 := ServeOnce(s, d);
      var times := if d.crash || Left(s, d.key) == 0 then 0 else 1;
      && id in s.db.accounts && Credits(s1.db, d.op, id, amount)
      && s1.db.accounts == Add(s.db.accounts, id, amount * times) && Left(s1, d.key) == Left(s, d.key) - times
  {
    CreditOnce(s.db, d.op, id, amount);
  }

  lemma AddTwice(accounts: map<int, Account>, id: int, amount: int, m: int, n: int)
    requires id in accounts
    ensures Add(Add(accounts, id, amount * m), id, amount * n) == Add(accounts, id, amount * (m + n))
  {
    assert amount * (m + n) == amount * m + amount * n;
  }

  /** A credit delivered any number of times, with crashes: the account gains the amount once if one delivery survives,
      twice if more do. */
  lemma {:induction false} CreditedAtMostTwice(s: Store, ds: seq<Delivery>, key: string, op: Op, id: int, amount: int)
    requires key != "" && Credits(s.db, op, id, amount) && forall d :: d in ds ==> d.key == key && d.op == op
    ensures OneKey(s, ds, key) && id in s.db.accounts
    ensures ServeAll(s, ds, key).db.accounts == Add(s.db.accounts, id, amount * Min(Surviving(ds), Left(s, key)))
    decreases |ds|
  {
    CreditOnce(s.db, op, id, amount);
    if ds == [] {
      assert amount * 0 == 0;
    } else {
      var d, later := ds[0], ds[1..];
      assert d in ds && forall e :: e in later ==> e in ds;
      var s1 := ServeOnce(s, d);
      ServeCredit(s, d, id, amount);
      CreditedAtMostTwice(s1, later, key, op, id, amount);
      var times := if d.crash || Left(s, key) == 0 then 0 else 1;
      var more := Min(Surviving(later), Left(s1, key));
      AddTwice(s.db.accounts, id, amount, times, more);
      assert Min(Surviving(ds), Left(s, key)) == times + more;
      assert ServeAll(s, ds, key) == ServeAll(s1, later, key);
    }
  }

  /** A transfer between two accounts of different users, with the money for it. */
  predicate Transfers(db: Db, p: P2P, from: int, to: int, times: nat) {
    && p.recipient in db.users && p.recipient != p.email && !HasRequest(p) && 0 < p.amount && from != to
    && FindAccount(db, p.user, p.source) == Some(from)
    && FindAccount(db, db.users[p.recipient], None) == Some(to)
    && times * p.amount <= db.accounts[from].balance
  }

  lemma TransferOnce(db: Db, p: P2P, v: Vendors, from: int, to: int, times: nat)
    requires Transfers(db, p, from, to, times + 1)
    ensures Commits(db, Pay(p, v))
    ensures var db' := Step(db, Pay(p, v)).0;
      && Transfers(db', p, from, to, times)
      && db'.accounts == Add(Add(db.accounts, from, -p.amount), to, p.amount)
  {
    assert (times + 1) * p.amount == times * p.amount + p.amount;
    assert times * p.amount >= 0;
  }

  lemma ServeTwice(s: Store, d: Delivery)
    requires CommitsOnce(s.db.users, d.op)
    ensures OneKey(s, [d, d], d.key) && ServeAll(s, [d, d], d.key) == ServeOnce(ServeOnce(s, d), d)
  {
    var s1 := ServeOnce(s, d);
    assert [d, d][1..] == [d] && [d][1..] == [];
    assert ServeAll(s1, [d], d.key) == ServeAll(ServeOnce(s1, d), [], d.key);
  }

  /** A transfer between users that is asked for twice under one key moves the money twice. */
  lemma TransferAppliedTwice(s: Store, key: string, p: P2P, v: Vendors, from: int, to: int)
    requires key != "" && key !in s.keys && Transfers(s.db, p, from, to, 2)
    ensures var d := Delivery(key, p.user, Pay(p, v), false);
      var once := Add(Add(s.db.accounts, from, -p.amount), to, p.amount);
      && OneKey(s, [d, d], key)
      && ServeAll(s, [d, d], key).db.accounts == Add(Add(once, from, -p.amount), to, p.amount)
  {
    var d := Delivery(key, p.user, Pay(p, v), false);
    TransferOnce(s.db, p, v, from, to, 1);
    var s1 := ServeOnce(s, d);
    TransferOnce(s1.db, p, v, from, to, 0);
    ServeTwice(s, d);
  }

  /** The transfer names a request that has been paid. */
  predicate PaysPaid(s: Store, op: Op) {
    && op.Pay? && HasRequest(op.p2p) && op.p2p.requestId.value in s.db.requests
    && s.db.requests[op.p2p.requestId.value].status == "paid"
  }

  lemma {:induction false} PaidStopsRetries(s: Store, ds: seq<Delivery>, key: string)
    requires OneKey(s, ds, key) && forall d :: d in ds ==> PaysPaid(s, d.op)
    ensures Applied(s, ds, key) == []
    decreases |ds|
  {
    if ds != [] {
      assert ds[0] in ds && forall d :: d in ds[1..] ==> d in ds;
      assert !Commits(s.db, ds[0].op);
      PaidStopsRetries(s, ds[1..], key);
    }
  }

  /** A transfer that pays a request is applied at most once, since the request is then paid. */
  lemma {:induction false} RequestStopsRetries(s: Store, ds: seq<Delivery>, key: string, p: P2P, v: Vendors)
    requires OneKey(s, ds, key) && HasRequest(p) && forall d :: d in ds ==> d.op == Pay(p, v)
    ensures |Applied(s, ds, key)| <= 1
    decreases |ds|
  {
    if ds != [] {
      assert ds[0] in ds && forall d :: d in ds[1..] ==> d in ds;
      var s1 := ServeOnce(s, ds[0]);
      if Reaches(s, ds[0]) && !(key != "" && Completed(s, key)) {
        assert PaysPaid(s1, Pay(p, v));
        PaidStopsRetries(s1, ds[1..], key);
      } else {
        RequestStopsRetries(s1, ds[1..], key, p, v);
      }
    }
  }
}
