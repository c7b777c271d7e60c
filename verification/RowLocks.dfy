/**
 Concurrent internal transfers, top-ups and immediate vendor payments.  Each one locks the account rows it
 needs, one row at a time, reads each row when it gets its lock, decides on what it read, and at commit writes
 back absolute balances and releases the rows.  A crash releases them unwritten.

 A transfer's query names both ids but no order (the sorted list only feeds its IN clause), so which of its two
 rows the database locks first is left to the database: `toFirst`.
 */
module RowLocks {
  import opened Wrappers
  import opened BankLedger

  datatype Txn =
    | Transfer(user: int, from: int, to: int, amount: int, toFirst: bool)
    | TopUpMain(account: int, amount: int)
    | VendorBill(account: int, amount: int)

  datatype Phase = Active(got: nat, seen: map<int, Account>) | Finished(outcome: Outcome<()>) | Crashed

  /** `accounts` is the committed table, `owner` who holds a row's lock, `history` the transactions that have
      finished, in the order of their commits. */
  datatype State = State(accounts: map<int, Account>, owner: map<int, nat>, phases: seq<Phase>, history: seq<nat>)

  /** What one transaction does to the whole table when it runs alone. */
  function Alone(accounts: map<int, Account>, t: Txn): Outcome<map<int, Account>> {
    match t
    case Transfer(user, from, to, amount, _) => MoveInternal(accounts, user, from, to, amount)
    case TopUpMain(id, amount) => if id in accounts then Done(Add(accounts, id, amount)) else Rejected(404)
    case VendorBill(id, amount) => Debit(accounts, id, amount)
  }

  function Table(accounts: map<int, Account>, t: Txn): map<int, Account> {
    match Alone(accounts, t)
    case Done(after) => after
    case Rejected(_) => accounts
  }

  function Result(accounts: map<int, Account>, t: Txn): Outcome<()> {
    match Alone(accounts, t)
    case Done(_) => Done(())
    case Rejected(code) => Rejected(code)
  }

  predicate Wants(accounts: map<int, Account>, t: Txn, id: int) {
    match t
    case Transfer(user, from, to, amount, _) =>
      amount > 0 && from != to && (id == from || id == to) && id in accounts && accounts[id].user == user
    case TopUpMain(account, _) => id == account && id in accounts
    case VendorBill(account, _) => id == account && id in accounts
  }

  function One(accounts: map<int, Account>, t: Txn, id: int): seq<int> {
    if Wants(accounts, t, id) then [id] else []
  }

  /** The rows a transaction locks, in order; ids that match no owned row lock nothing. */
  function Rows(accounts: map<int, Account>, t: Txn): seq<int> {
    match t
    case Transfer(_, from, to, _, toFirst) =>
      if toFirst then One(accounts, t, to) + One(accounts, t, from) else One(accounts, t, from) + One(accounts, t, to)
    case TopUpMain(id, _) => One(accounts, t, id)
    case VendorBill(id, _) => One(accounts, t, id)
  }

  datatype Event = Lock(t: nat) | Commit(t: nat) | CrashOf(t: nat)

  predicate Live(s: State, t: nat) {
    t < |s.phases| && s.phases[t].Active?
  }

  predicate Enabled(txns: seq<Txn>, s: State, e: Event)
    requires |s.phases| == |txns|
  {
    match e
    case Lock(t) =>
      && Live(s, t)
      && var rows := Rows(s.accounts, txns[t]);
         s.phases[t].got < |rows| && rows[s.phases[t].got] !in s.owner
    case Commit(t) => Live(s, t) && s.phases[t].got >= |Rows(s.accounts, txns[t])|
    case CrashOf(t) => Live(s, t)
  }

  function Release(owner: map<int, nat>, t: nat): map<int, nat> {
    map id | id in owner && owner[id] != t :: owner[id]
  }

  /** The rows of a computed table that the transaction read, written over the current table. */
  function WriteBack(accounts: map<int, Account>, seen: map<int, Account>, computed: map<int, Account>)
    : map<int, Account>
  {
    map id | id in accounts :: if id in seen && id in computed then computed[id] else accounts[id]
  }

  function Next(txns: seq<Txn>, s: State, e: Event): State
    requires |s.phases| == |txns| && Enabled(txns, s, e)
  {
    match e
    case Lock(t) =>
      var id := Rows(s.accounts, txns[t])[s.phases[t].got];
      s.(owner := s.owner[id := t],
         phases := s.phases[t := Active(s.phases[t].got + 1, s.phases[t].seen[id := s.accounts[id]])])
    case Commit(t) =>
      // the decision and the new balances come from the rows that were read, never from the table
      var seen := s.phases[t].seen;
      State(WriteBack(s.accounts, seen, Table(seen, txns[t])),
            Release(s.owner, t),
            s.phases[t := Finished(Result(seen, txns[t]))],
            s.history + [t])
    case CrashOf(t) => s.(owner := Release(s.owner, t), phases := s.phases[t := Crashed])
  }

  predicate Possible(txns: seq<Txn>, s: State, es: seq<Event>)
    decreases |es|
  {
    |s.phases| == |txns| && (es == [] || (Enabled(txns, s, es[0]) && Possible(txns, Next(txns, s, es[0]), es[1..])))
  }

  function After(txns: seq<Txn>, s: State, es: seq<Event>): State
    requires Possible(txns, s, es)
    decreases |es|
  {
    if es == [] then s else After(txns, Next(txns, s, es[0]), es[1..])
  }

  function Start(accounts: map<int, Account>, txns: seq<Txn>): State {
    State(accounts, map[], seq(|txns|, i => Active(0, map[])), [])
  }

  /** Alone, the three transactions do to the balances what the ledger's operations do, and are answered alike. */
  lemma AloneIsTheLedger(db: Db, user: int, t: Txn, source: Option<int>, subscriberId: Option<string>, cleared: bool)
    requires match t
      case Transfer(payer, _, _, _, _) => payer == user
      case TopUpMain(id, _) => user in db.users.Values && FindAccount(db, user, None) == Some(id)
      case VendorBill(id, _) =>
        FindAccount(db, user, source) == Some(id) && subscriberId.Some? && subscriberId.value != ""
    ensures var (db', outcome) := match t
        case Transfer(_, from, to, amount, _) => InternalTransfer(db, user, from, to, amount)
        case TopUpMain(_, amount) => AtomicTopUp(db, user, amount)
        case VendorBill(_, amount) => VendorPayment(db, user, amount, source, subscriberId, cleared);
      db'.accounts == Table(db.accounts, t) && outcome == Result(db.accounts, t)
  {
  }

  // ---------------------------------------------------------------- the serial run

  /** The finished transactions one after the other. */
  function Serial(accounts: map<int, Account>, txns: seq<Txn>, history: seq<nat>): map<int, Account>
    requires forall k :: 0 <= k < |history| ==> history[k] < |txns|
  {
    if history == [] then accounts
    else Table(Serial(accounts, txns, history[..|history| - 1]), txns[history[|history| - 1]])
  }

  /** What is true of every reachable state. */
  ghost predicate Inv(initial: map<int, Account>, txns: seq<Txn>, s: State) {
    && |s.phases| == |txns|
    && s.accounts.Keys == initial.Keys && (forall id :: id in initial ==> s.accounts[id].user == initial[id].user)
    && (forall k :: 0 <= k < |s.history| ==> s.history[k] < |txns|)
    && (forall id :: id in s.owner ==> Live(s, s.owner[id]) && id in s.phases[s.owner[id]].seen)
    && (forall t :: Live(s, t) ==> LiveOk(txns, s, t))
    && s.accounts == Serial(initial, txns, s.history)
  }

  /** A live transaction holds exactly the rows it has read, they are the first of its rows, and what it read is
      what the table still says. */
  ghost predicate LiveOk(txns: seq<Txn>, s: State, t: nat)
    requires |s.phases| == |txns| && Live(s, t)
  {
    var rows := Rows(s.accounts, txns[t]);
    var got, seen := s.phases[t].got, s.phases[t].seen;
    && got <= |rows|
    && (forall id :: id in seen <==> id in rows[..got])
    && (forall id :: id in seen ==> id in s.owner && s.owner[id] == t && id in s.accounts && seen[id] == s.accounts[id])
  }

  lemma RowsStay(accounts: map<int, Account>, after: map<int, Account>, t: Txn)
    requires after.Keys == accounts.Keys && forall id :: id in accounts ==> after[id].user == accounts[id].user
    ensures Rows(after, t) == Rows(accounts, t)
  {
  }

  /** Without repetition, and exactly the rows the transaction wants. */
  lemma RowsDistinct(accounts: map<int, Account>, t: Txn)
    ensures |Rows(accounts, t)| <= 2
    ensures forall i, j :: 0 <= i < j < |Rows(accounts, t)| ==> Rows(accounts, t)[i] != Rows(accounts, t)[j]
    ensures forall id :: id in Rows(accounts, t) <==> Wants(accounts, t, id)
  {
  }

  /** What a transaction read: exactly the rows it wants, as the table has them. */
  ghost predicate ReadWanted(accounts: map<int, Account>, t: Txn, seen: map<int, Account>) {
    && (forall id :: id in seen <==> Wants(accounts, t, id))
    && (forall id :: id in seen ==> id in accounts && seen[id] == accounts[id])
  }

  lemma TransferReads(accounts: map<int, Account>, t: Txn, seen: map<int, Account>)
    requires t.Transfer? && ReadWanted(accounts, t, seen)
    ensures Result(seen, t) == Result(accounts, t) && WriteBack(accounts, seen, Table(seen, t)) == Table(accounts, t)
  {
    if t.amount > 0 && t.from != t.to {
      assert t.from in seen <==> t.from in accounts && accounts[t.from].user == t.user;
      assert t.to in seen <==> t.to in accounts && accounts[t.to].user == t.user;
    }
    var written := WriteBack(accounts, seen, Table(seen, t));
    assert written.Keys == Table(accounts, t).Keys;
    assert forall id :: id in accounts ==> written[id] == Table(accounts, t)[id];
  }

  lemma SingleReads(accounts: map<int, Account>, t: Txn, seen: map<int, Account>)
    requires !t.Transfer? && ReadWanted(accounts, t, seen)
    ensures Result(seen, t) == Result(accounts, t) && WriteBack(accounts, seen, Table(seen, t)) == Table(accounts, t)
  {
    assert t.account in seen <==> t.account in accounts;
    var written := WriteBack(accounts, seen, Table(seen, t));
    assert written.Keys == Table(accounts, t).Keys;
    assert forall id :: id in accounts ==> written[id] == Table(accounts, t)[id];
  }

  /** A transaction that has read all its rows decides on them as it would on the whole table. */
  lemma ReadsDecide(accounts: map<int, Account>, t: Txn, seen: map<int, Account>)
    requires forall id :: id in seen <==> id in Rows(accounts, t)
    requires forall id :: id in seen ==> id in accounts && seen[id] == accounts[id]
    ensures Result(seen, t) == Result(accounts, t)
    ensures WriteBack(accounts, seen, Table(seen, t)) == Table(accounts, t)
  {
    RowsDistinct(accounts, t);
    if t.Transfer? {
      TransferReads(accounts, t, seen);
    } else {
      SingleReads(accounts, t, seen);
    }
  }

  /** After one more lock by `t`, what a live transaction has read is still what it holds. */
  lemma LockKeepsLive(txns: seq<Txn>, s: State, t: nat, u: nat)
    requires |s.phases| == |txns| && Enabled(txns, s, Lock(t)) && Live(s, u) && LiveOk(txns, s, u) && LiveOk(txns, s, t)
    requires forall id :: id in Rows(s.accounts, txns[t]) ==> id in s.accounts
    ensures LiveOk(txns, Next(txns, s, Lock(t)), u)
  {
    var rows := Rows(s.accounts, txns[t]);
    var got := s.phases[t].got;
    assert rows[got] in rows;
    assert rows[..got + 1] == rows[..got] + [rows[got]];
  }

  lemma LockKeepsInv(initial: map<int, Account>, txns: seq<Txn>, s: State, t: nat)
    requires Inv(initial, txns, s) && Enabled(txns, s, Lock(t))
    ensures Inv(initial, txns, Next(txns, s, Lock(t)))
  {
    var s' := Next(txns, s, Lock(t));
    RowsDistinct(s.accounts, txns[t]);
    assert Live(s, t) && LiveOk(txns, s, t);
    forall u: nat | Live(s', u)
      ensures LiveOk(txns, s', u)
    {
      assert Live(s, u) && LiveOk(txns, s, u);
      LockKeepsLive(txns, s, t, u);
    }
  }

  lemma ReleaseKeeps(initial: map<int, Account>, txns: seq<Txn>, s: State, s': State, t: nat)
    requires Inv(initial, txns, s) && Live(s, t)
    requires s'.owner == Release(s.owner, t) && |s'.phases| == |s.phases| && !Live(s', t)
    requires forall u :: 0 <= u < |s.phases| && u != t ==> s'.phases[u] == s.phases[u]
    requires s'.accounts.Keys == s.accounts.Keys
    requires forall id :: id in s.accounts ==> s'.accounts[id].user == s.accounts[id].user
    requires forall id :: id in s.accounts && id !in s.phases[t].seen ==> s'.accounts[id] == s.accounts[id]
    ensures forall id :: id in s'.owner ==> Live(s', s'.owner[id]) && id in s'.phases[s'.owner[id]].seen
    ensures forall u :: Live(s', u) ==> LiveOk(txns, s', u)
  {
    assert LiveOk(txns, s, t);
    forall u: nat | Live(s', u)
      ensures LiveOk(txns, s', u)
    {
      assert Live(s, u) && LiveOk(txns, s, u);
      RowsStay(s.accounts, s'.accounts, txns[u]);
    }
  }

  /** A write keeps every row and owner, and touches only what was read. */
  lemma WritesOnlyWhatWasRead(accounts: map<int, Account>, t: Txn, seen: map<int, Account>)
    requires forall id :: id in seen ==> id in accounts && seen[id] == accounts[id]
    ensures var after := WriteBack(accounts, seen, Table(seen, t));
      && after.Keys == accounts.Keys
      && forall id :: id in accounts ==>
          after[id].user == accounts[id].user && (id !in seen ==> after[id] == accounts[id])
  {
  }

  lemma CommitWritesSerially(initial: map<int, Account>, txns: seq<Txn>, s: State, t: nat)
    requires Inv(initial, txns, s) && Enabled(txns, s, Commit(t))
    ensures var seen := s.phases[t].seen;
      && Result(seen, txns[t]) == Result(s.accounts, txns[t])
      && WriteBack(s.accounts, seen, Table(seen, txns[t])) == Table(s.accounts, txns[t])
  {
    assert LiveOk(txns, s, t);
    var rows := Rows(s.accounts, txns[t]);
    assert rows[..s.phases[t].got] == rows;
    ReadsDecide(s.accounts, txns[t], s.phases[t].seen);
  }

  lemma CommitKeepsInv(initial: map<int, Account>, txns: seq<Txn>, s: State, t: nat)
    requires Inv(initial, txns, s) && Enabled(txns, s, Commit(t))
    ensures Inv(initial, txns, Next(txns, s, Commit(t)))
    ensures Next(txns, s, Commit(t)).phases[t] == Finished(Result(Serial(initial, txns, s.history), txns[t]))
  {
    var s' := Next(txns, s, Commit(t));
    assert LiveOk(txns, s, t);
    CommitWritesSerially(initial, txns, s, t);
    WritesOnlyWhatWasRead(s.accounts, txns[t], s.phases[t].seen);
    ReleaseKeeps(initial, txns, s, s', t);
    assert s'.history[..|s.history|] == s.history;
  }

  lemma CrashKeepsInv(initial: map<int, Account>, txns: seq<Txn>, s: State, t: nat)
    requires Inv(initial, txns, s) && Enabled(txns, s, CrashOf(t))
    ensures Inv(initial, txns, Next(txns, s, CrashOf(t)))
  {
    ReleaseKeeps(initial, txns, s, Next(txns, s, CrashOf(t)), t);
  }

  lemma StepKeepsInv(initial: map<int, Account>, txns: seq<Txn>, s: State, e: Event)
    requires Inv(initial, txns, s) && Enabled(txns, s, e)
    ensures Inv(initial, txns, Next(txns, s, e))
  {
    match e
    case Lock(t) => LockKeepsInv(initial, txns, s, t);
    case Commit(t) => CommitKeepsInv(initial, txns, s, t);
    case CrashOf(t) => CrashKeepsInv(initial, txns, s, t);
  }

  lemma {:induction false} RunKeepsInv(initial: map<int, Account>, txns: seq<Txn>, s: State, es: seq<Event>)
    requires Inv(initial, txns, s) && Possible(txns, s, es)
    ensures Inv(initial, txns, After(txns, s, es))
    decreases |es|
  {
    if es != [] {
      StepKeepsInv(initial, txns, s, es[0]);
      RunKeepsInv(initial, txns, Next(txns, s, es[0]), es[1..]);
    }
  }

  lemma StartInv(accounts: map<int, Account>, txns: seq<Txn>)
    ensures Inv(accounts, txns, Start(accounts, txns))
  {
  }

  ghost predicate AnsweredAt(initial: map<int, Account>, txns: seq<Txn>, s: State, k: nat)
    requires |s.phases| == |txns| && k < |s.history| && forall j :: 0 <= j < |s.history| ==> s.history[j] < |txns|
  {
    s.phases[s.history[k]] == Finished(Result(Serial(initial, txns, s.history[..k]), txns[s.history[k]]))
  }

  /** Each finished transaction was answered as it would have been at its place in the serial run. */
  ghost predicate Answered(initial: map<int, Account>, txns: seq<Txn>, s: State)
    requires |s.phases| == |txns|
  {
    && (forall k :: 0 <= k < |s.history| ==> s.history[k] < |txns|)
    && (forall k: nat :: k < |s.history| ==> AnsweredAt(initial, txns, s, k))
    && (forall t :: 0 <= t < |txns| ==> (s.phases[t].Finished? <==> t in s.history))
    && (forall j, k :: 0 <= j < k < |s.history| ==> s.history[j] != s.history[k])
  }

  /** One more transaction at the end of the history, answered as the serial run answers it. */
  lemma AppendAnswered(initial: map<int, Account>, txns: seq<Txn>, s: State, s': State, t: nat)
    requires |s.phases| == |s'.phases| == |txns| && Answered(initial, txns, s) && Live(s, t)
    requires s'.history == s.history + [t] && forall u :: 0 <= u < |txns| && u != t ==> s'.phases[u] == s.phases[u]
    requires s'.phases[t] == Finished(Result(Serial(initial, txns, s.history), txns[t]))
    ensures Answered(initial, txns, s')
  {
    assert t !in s.history;
    forall k: nat | k < |s'.history|
      ensures AnsweredAt(initial, txns, s', k)
    {
      if k < |s.history| {
        assert s.history[k] in s.history && AnsweredAt(initial, txns, s, k);
        assert s'.history[..k] == s.history[..k];
      } else {
        assert s'.history[..k] == s.history;
      }
    }
  }

  lemma CommitKeepsAnswered(initial: map<int, Account>, txns: seq<Txn>, s: State, t: nat)
    requires Inv(initial, txns, s) && Answered(initial, txns, s) && Enabled(txns, s, Commit(t))
    ensures Answered(initial, txns, Next(txns, s, Commit(t)))
  {
    CommitKeepsInv(initial, txns, s, t);
    AppendAnswered(initial, txns, s, Next(txns, s, Commit(t)), t);
  }

  lemma SameAnswered(initial: map<int, Account>, txns: seq<Txn>, s: State, s': State, t: nat)
    requires |s.phases| == |s'.phases| == |txns| && Answered(initial, txns, s) && Live(s, t)
    requires s'.history == s.history && forall u :: 0 <= u < |txns| && u != t ==> s'.phases[u] == s.phases[u]
    requires !s'.phases[t].Finished?
    ensures Answered(initial, txns, s')
  {
    assert t !in s.history;
    forall k: nat | k < |s.history|
      ensures AnsweredAt(initial, txns, s', k)
    {
      assert s.history[k] in s.history && AnsweredAt(initial, txns, s, k);
    }
  }

  lemma StepKeepsAnswered(initial: map<int, Account>, txns: seq<Txn>, s: State, e: Event)
    requires Inv(initial, txns, s) && Answered(initial, txns, s) && Enabled(txns, s, e)
    ensures Answered(initial, txns, Next(txns, s, e))
  {
    if e.Commit? {
      CommitKeepsAnswered(initial, txns, s, e.t);
    } else {
      SameAnswered(initial, txns, s, Next(txns, s, e), e.t);
    }
  }

  lemma {:induction false} RunKeepsAnswered(initial: map<int, Account>, txns: seq<Txn>, s: State, es: seq<Event>)
    requires Inv(initial, txns, s) && Answered(initial, txns, s) && Possible(txns, s, es)
    ensures |After(txns, s, es).phases| == |txns| && Answered(initial, txns, After(txns, s, es))
    decreases |es|
  {
    if es != [] {
      StepKeepsInv(initial, txns, s, es[0]);
      StepKeepsAnswered(initial, txns, s, es[0]);
      RunKeepsAnswered(initial, txns, Next(txns, s, es[0]), es[1..]);
    }
  }

  /** Serializability under row locks.  In every interleaving, with crashes, the table is what running the finished
      transactions one after the other in commit order gives, each is finished once, and each was answered as in
      that serial run. */
  lemma Serializable(accounts: map<int, Account>, txns: seq<Txn>, es: seq<Event>)
    requires Possible(txns, Start(accounts, txns), es)
    ensures var s := After(txns, Start(accounts, txns), es);
      && |s.phases| == |txns| && Answered(accounts, txns, s)
      && s.accounts == Serial(accounts, txns, s.history)
  {
    StartInv(accounts, txns);
    RunKeepsInv(accounts, txns, Start(accounts, txns), es);
    RunKeepsAnswered(accounts, txns, Start(accounts, txns), es);
  }
}
