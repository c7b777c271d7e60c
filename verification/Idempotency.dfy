/**
 The two-phase idempotency key (backend/idempotency.py).  Around an internal transfer (backend/routers/accounts.py)
 the transfer and the pending key are one commit; completing the key is a second one, so a crash can fall between
 them.  The other handlers commit once, at the end.
 */
module Idempotency {
  import opened Wrappers
  import opened BankLedger

  /** The stored answer: of an internal transfer, of an operation with a transaction row, of a subscription. */
  datatype Body = Body(senderBalance: int, receiverBalance: int) | Receipt(transactionId: nat) | Started

  datatype KeyRow = KeyRow(user: int, status: string, body: Option<Body>)

  datatype Store = Store(db: Db, keys: map<string, KeyRow>)

  /** An empty key asks for no idempotency. */
  datatype Request = Request(key: string, user: int, from: int, to: int, amount: int)

  datatype CrashPoint = NoCrash | BeforeFirstCommit | BetweenCommits | AfterSecondCommit

  datatype Reply = Answer(body: Body) | Refused(status: nat) | Nothing

  predicate Completed(s: Store, key: string) {
    key in s.keys && s.keys[key].status == "completed" && s.keys[key].body.Some?
  }

  function BodyOf(db: Db, r: Request): Body
    requires r.from in db.accounts && r.to in db.accounts
  {
    Body(db.accounts[r.from].balance, db.accounts[r.to].balance)
  }

  /** The transfer is reached and accepted. */
  predicate Transfers(s: Store, r: Request) {
    !(r.key != "" && Completed(s, r.key)) && InternalTransfer(s.db, r.user, r.from, r.to, r.amount).1.Done?
  }

  /** The store after the first commit: the transfer, and the key if it is new. */
  function FirstCommit(s: Store, r: Request): Store {
    Store(InternalTransfer(s.db, r.user, r.from, r.to, r.amount).0,
          if r.key == "" || r.key in s.keys then s.keys else s.keys[r.key := KeyRow(r.user, "pending", None)])
  }

  function SecondCommit(s: Store, r: Request): Store
    requires r.key in s.keys && r.from in s.db.accounts && r.to in s.db.accounts
  {
    s.(keys := s.keys[r.key := s.keys[r.key].(status := "completed", body := Some(BodyOf(s.db, r)))])
  }

  /** One request, served alone, with a crash somewhere or nowhere. */
  function Serve(s: Store, r: Request, crash: CrashPoint): (Store, Reply) {
    if r.key != "" && Completed(s, r.key) then
      (s, if crash.NoCrash? then Answer(s.keys[r.key].body.value) else Nothing)
    else
      match InternalTransfer(s.db, r.user, r.from, r.to, r.amount).1
      case Rejected(code) => (s, if crash.NoCrash? then Refused(code) else Nothing)
      case Done(_) =>
        if crash.BeforeFirstCommit? then (s, Nothing)
        else
          var s1 := FirstCommit(s, r);
          if r.key == "" then (s1, if crash.NoCrash? then Answer(BodyOf(s1.db, r)) else Nothing)
          else if crash.BetweenCommits? then (s1, Nothing)
          else (SecondCommit(s1, r), if crash.NoCrash? then Answer(BodyOf(s1.db, r)) else Nothing)
  }

  function Run(s: Store, requests: seq<(Request, CrashPoint)>): Store
    decreases |requests|
  {
    if requests == [] then s else Run(Serve(s, requests[0].0, requests[0].1).0, requests[1..])
  }

  /** Crashes that fell between the two commits of a request. */
  function CrashesBetween(s: Store, requests: seq<(Request, CrashPoint)>): nat
    decreases |requests|
  {
    if requests == [] then 0
    else
      (if Transfers(s, requests[0].0) && requests[0].1.BetweenCommits? then 1 else 0)
      + CrashesBetween(Serve(s, requests[0].0, requests[0].1).0, requests[1..])
  }

  predicate Share(requests: seq<(Request, CrashPoint)>, key: string) {
    forall q :: q in requests ==> q.0.key == key
  }

  function CompletedOnce(s: Store, key: string): nat {
    if Completed(s, key) then 1 else 0
  }

  /** Once a key is completed, every request under it gets the stored body and changes nothing. */
  lemma {:induction false} CompletedReplays(s: Store, requests: seq<(Request, CrashPoint)>, key: string)
    requires key != "" && Completed(s, key) && Share(requests, key)
    ensures Run(s, requests) == s && CrashesBetween(s, requests) == 0
    ensures forall q :: q in requests ==>
      Serve(s, q.0, q.1) == (s, if q.1.NoCrash? then Answer(s.keys[key].body.value) else Nothing)
    decreases |requests|
  {
    if requests != [] {
      assert requests[0] in requests;
      assert forall q :: q in requests[1..] ==> q in requests;
      CompletedReplays(s, requests[1..], key);
      assert forall q :: q in requests ==> q.0.key == key;
    }
  }

  /** Exact effects with crashes.  Over serial requests that share a key, the transfers applied (two rows each)
      number the crashes between the two commits, plus one if the key has become completed. */
  lemma {:induction false} EffectsCounted(s: Store, requests: seq<(Request, CrashPoint)>, key: string)
    requires key != "" && Share(requests, key)
    ensures |Run(s, requests).db.rows| - |s.db.rows| ==
      2 * (CrashesBetween(s, requests) + CompletedOnce(Run(s, requests), key) - CompletedOnce(s, key))
    ensures Completed(s, key) ==> Completed(Run(s, requests), key)
    decreases |requests|
  {
    if requests != [] {
      assert requests[0] in requests;
      assert forall q :: q in requests[1..] ==> q in requests;
      EffectsCounted(Serve(s, requests[0].0, requests[0].1).0, requests[1..], key);
    }
  }

  /** The answer to an applied transfer tells the two balances after it, and is what later requests get. */
  lemma AnswerTellsTheBalances(s: Store, r: Request)
    requires Transfers(s, r)
    ensures var (s1, reply) := Serve(s, r, NoCrash);
      && r.from in s.db.accounts && r.to in s.db.accounts
      && reply == Answer(Body(s.db.accounts[r.from].balance - r.amount, s.db.accounts[r.to].balance + r.amount))
      && (r.key != "" ==>
            && Completed(s1, r.key) && s1.keys[r.key].body == Some(reply.body)
            && s1.keys[r.key].user == if r.key in s.keys then s.keys[r.key].user else r.user)
  {
  }

  /** One request: the transfer is applied or it is not, and its count says which. */
  lemma ServeMovesMoney(s: Store, r: Request, crash: CrashPoint)
    requires r.key != "" && r.from != r.to && r.from in s.db.accounts && r.to in s.db.accounts
    ensures var s1 := Serve(s, r, crash).0;
      var times := (if Transfers(s, r) && crash.BetweenCommits? then 1 else 0) +
          CompletedOnce(s1, r.key) - CompletedOnce(s, r.key);
      && 0 <= times <= 1 && s1.db.accounts.Keys == s.db.accounts.Keys
      && s1.db.accounts[r.from].balance == s.db.accounts[r.from].balance - (if times == 0 then 0 else r.amount)
      && s1.db.accounts[r.to].balance == s.db.accounts[r.to].balance + (if times == 0 then 0 else r.amount)
      && (forall a :: a in s.db.accounts && a != r.from && a != r.to ==> s1.db.accounts[a] == s.db.accounts[a])
  {
  }

  lemma OneMoreTime(amount: int, first: int, rest: int)
    requires 0 <= first <= 1
    ensures amount * (first + rest) == (if first == 0 then 0 else amount) + amount * rest
  {
  }

  /** Retrying one transfer: the money it moved is the amount times that count, from the sender to the receiver. */
  lemma {:induction false} RetriesMoveMoney(s: Store, requests: seq<(Request, CrashPoint)>, r: Request)
    requires r.key != "" && r.from != r.to && r.from in s.db.accounts && r.to in s.db.accounts
    requires forall q :: q in requests ==> q.0 == r
    ensures var s' := Run(s, requests);
      var times := CrashesBetween(s, requests) + CompletedOnce(s', r.key) - CompletedOnce(s, r.key);
      && s'.db.accounts.Keys == s.db.accounts.Keys
      && s'.db.accounts[r.from].balance == s.db.accounts[r.from].balance - r.amount * times
      && s'.db.accounts[r.to].balance == s.db.accounts[r.to].balance + r.amount * times
      && (forall a :: a in s.db.accounts && a != r.from && a != r.to ==> s'.db.accounts[a] == s.db.accounts[a])
    decreases |requests|
  {
    if requests != [] {
      assert requests[0] in requests;
      var crash, later := requests[0].1, requests[1..];
      var s1 := Serve(s, r, crash).0;
      ServeMovesMoney(s, r, crash);
      RetriesMoveMoney(s1, later, r);
      OneMoreTime(r.amount,
                  (if Transfers(s, r) && crash.BetweenCommits? then 1 else 0) +
                      CompletedOnce(s1, r.key) - CompletedOnce(s, r.key),
                  CrashesBetween(s1, later) + CompletedOnce(Run(s1, later), r.key) - CompletedOnce(s1, r.key));
    }
  }

  // ---------------------------------------------------------------- handlers that commit once

  /** A request for an operation under a key; `crash` says that the process dies before the commit. */
  datatype Delivery = Delivery(key: string, user: int, op: Op, crash: bool)

  /** Top-ups, subscriptions, admin credits and transfers between users. */
  predicate CommitsOnce(users: map<string, int>, op: Op) {
    op.TopUp? || op.Subscribe? || op.Credit? || (op.Pay? && op.p2p.recipient in users)
  }

  /** The handler gets as far as its commit: it neither refuses the operation nor drops it. */
  predicate Commits(db: Db, op: Op) {
    && Step(db, op).1.Done?
    && (op.TopUp? ==> op.user in db.users.Values && FindAccount(db, op.user, None).Some?)
    && (op.Subscribe? ==> op.user in db.users.Values)
  }

  function ReceiptOf(db: Db, op: Op): Body {
    if op.Subscribe? then Started else Receipt(db.nextId)
  }

  /** The key after the commit.  The session does not flush by itself, so completing the key does not find the row that
      the same request has added: only a key that was there before is completed. */
  function KeyAfter(s: Store, d: Delivery): KeyRow {
    if d.key in s.keys then s.keys[d.key].(status := "completed", body := Some(ReceiptOf(s.db, d.op)))
    else KeyRow(d.user, "pending", None)
  }

  function ServeOnce(s: Store, d: Delivery): (s': Store)
    requires CommitsOnce(s.db.users, d.op)
    ensures s'.db.users == s.db.users
  {
    if (d.key != "" && Completed(s, d.key)) || d.crash || !Commits(s.db, d.op) then s
    else Store(Step(s.db, d.op).0, if d.key == "" then s.keys else s.keys[d.key := KeyAfter(s, d)])
  }

  /** The endpoint with its database session: what is added or changed becomes visible at the next commit. */
  class Endpoint {
    var db: Db
    var keys: map<string, KeyRow>
    var sessionDb: Db
    var sessionKeys: map<string, KeyRow>

    ghost function View(): Store
      reads this
    {
      Store(db, keys)
    }

    constructor (s: Store)
      ensures View() == s
    {
      db, keys, sessionDb, sessionKeys := s.db, s.keys, s.db, map[];
    }

    /** A session starts from the committed state; one that ends uncommitted leaves no trace. */
    method BeginSession()
      modifies this`sessionDb, this`sessionKeys
      ensures sessionDb == db && sessionKeys == map[]
    {
      sessionDb, sessionKeys := db, map[];
    }

    method CommitSession()
      modifies this
      ensures db == old(sessionDb) && keys == old(keys) + old(sessionKeys)
      ensures sessionDb == db && sessionKeys == map[]
    {
      db := sessionDb;
      keys := keys + sessionKeys;
      sessionKeys := map[];
    }

    method CheckIdempotency(key: string, user: int) returns (saved: Option<Body>)
      modifies this`sessionKeys
      ensures saved == if key != "" && Completed(View(), key) then keys[key].body else None
      ensures sessionKeys == if key == "" || key in keys then old(sessionKeys)
                             else old(sessionKeys)[key := KeyRow(user, "pending", None)]
    {
      if key == "" {
        return None;
      }
      if key in keys {
        var existing := keys[key];
        if existing.status == "completed" && existing.body.Some? {
          return existing.body;
        }
        return None;
      }
      sessionKeys := sessionKeys[key := KeyRow(user, "pending", None)];
      return None;
    }

    method CompleteIdempotency(key: string, body: Body)
      modifies this`sessionKeys
      ensures sessionKeys == if key == "" || key !in keys then old(sessionKeys)
                             else old(sessionKeys)[key := keys[key].(status := "completed", body := Some(body))]
    {
      if key == "" {
        return;
      }
      if key in keys {
        sessionKeys := sessionKeys[key := keys[key].(status := "completed", body := Some(body))];
      }
    }

    /** The two legs, in the session. */
    method TransferInSession(r: Request) returns (outcome: Outcome<()>)
      modifies this`sessionDb
      ensures (sessionDb, outcome) == BankLedger.InternalTransfer(old(sessionDb), r.user, r.from, r.to, r.amount)
      ensures outcome.Done? ==> r.from in sessionDb.accounts && r.to in sessionDb.accounts
    {
      var (moved, result) := BankLedger.InternalTransfer(sessionDb, r.user, r.from, r.to, r.amount);
      sessionDb := moved;
      return result;
    }

    /** Everything up to the first commit; the reply is there if the request ends before it. */
    method FirstPhase(r: Request, crash: CrashPoint) returns (ended: Option<Reply>)
      modifies this
      ensures ended.Some? ==> (View(), ended.value) == Serve(old(View()), r, crash)
      ensures ended.None? ==> Transfers(old(View()), r) && !crash.BeforeFirstCommit?
      ensures ended.None? ==> View() == FirstCommit(old(View()), r)
      ensures ended.None? ==> r.from in db.accounts && r.to in db.accounts && sessionDb == db && sessionKeys == map[]
    {
      BeginSession();
      if r.key != "" {
        var saved := CheckIdempotency(r.key, r.user);
        if saved.Some? {
          return Some(if crash.NoCrash? then Answer(saved.value) else Nothing);
        }
      }
      var outcome := TransferInSession(r);
      if outcome.Rejected? {
        return Some(if crash.NoCrash? then Refused(outcome.status) else Nothing);
      }
      if crash.BeforeFirstCommit? {
        return Some(Nothing);
      }
      CommitSession();
      assert keys == FirstCommit(old(View()), r).keys;
      return None;
    }

    /** Completing the key and the second commit. */
    method SecondPhase(r: Request, body: Body)
      requires r.key != "" && r.key in keys && sessionDb == db && sessionKeys == map[]
      requires r.from in db.accounts && r.to in db.accounts && body == BodyOf(db, r)
      modifies this
      ensures View() == SecondCommit(old(View()), r)
    {
      CompleteIdempotency(r.key, body);
      CommitSession();
    }

    method InternalTransfer(r: Request, crash: CrashPoint) returns (reply: Reply)
      modifies this
      ensures (View(), reply) == Serve(old(View()), r, crash)
    {
      var ended := FirstPhase(r, crash);
      if ended.Some? {
        return ended.value;
      }
      var body := Body(db.accounts[r.from].balance, db.accounts[r.to].balance);
      if r.key != "" {
        if crash.BetweenCommits? {
          return Nothing;
        }
        SecondPhase(r, body);
      }
      return if crash.NoCrash? then Answer(body) else Nothing;
    }

    /** The operation and its key, in the session. */
    method ApplyInSession(d: Delivery) returns (applied: bool)
      modifies this`sessionDb, this`sessionKeys
      ensures applied <==> !(d.key != "" && Completed(View(), d.key)) && Commits(db, d.op)
      ensures applied ==> sessionDb == Step(db, d.op).0
      ensures applied ==> sessionKeys == if d.key == "" then map[] else map[d.key := KeyAfter(View(), d)]
    {
      BeginSession();
      var saved := CheckIdempotency(d.key, d.user);
      if saved.Some? || !Commits(db, d.op) {
        return false;
      }
      sessionDb := Step(db, d.op).0;
      CompleteIdempotency(d.key, ReceiptOf(db, d.op));
      return true;
    }

    /** A handler that commits once, at the end. */
    method Deliver(d: Delivery)
      requires CommitsOnce(db.users, d.op)
      modifies this
      ensures View() == ServeOnce(old(View()), d)
    {
      var applied := ApplyInSession(d);
      if applied && !d.crash {
        CommitSession();
      }
    }
  }
}
