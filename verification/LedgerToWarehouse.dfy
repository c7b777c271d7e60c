/**
 From a ledger row to its ClickHouse row.  The bank's transaction rows are the table the pipeline works on; internal
 transfers put no event about their rows into the outbox, so only a pass of the sync checker brings those over.
 */
module LedgerToWarehouse {
  import opened Numerals
  import opened Wrappers
  import opened Payloads
  import opened Consumer
  import opened Delivery
  import opened Outbox
  import opened SyncChecker
  import opened Pipeline
  import opened RowColumns
  import opened RepairPass
  import Ledger = BankLedger

  // ---------------------------------------------------------------- the rows of a ledger run

  /** Rows in the order of their ids, each of some type, cleared or failed. */
  ghost predicate Ordered(db: Ledger.Db) {
    && (forall i, j :: 0 <= i < j < |db.rows| ==> db.rows[i].id < db.rows[j].id)
    && (forall i :: 0 <= i < |db.rows| ==> db.rows[i].id < db.nextId && db.rows[i].status in {"cleared", "failed"})
    && (forall i :: 0 <= i < |db.rows| ==> db.rows[i].transactionType != "")
  }

  lemma OneMoreOrdered(db: Ledger.Db, db': Ledger.Db, r: Ledger.Row)
    requires Ordered(db) && db'.rows == db.rows + [r] && db.nextId <= r.id < db'.nextId
    requires r.status in {"cleared", "failed"} && r.transactionType != ""
    ensures Ordered(db')
  {
  }

  lemma EmitOrdered(db: Ledger.Db, user: int, account: int, amount: int, category: string, kind: string, side: string,
                    status: string, eventType: string, parent: Option<nat>)
    requires Ordered(db) && status in {"cleared", "failed"} && kind != ""
    ensures Ordered(Ledger.Emit(db, user, account, amount, category, kind, side, status, eventType, parent))
  {
    var db' := Ledger.Emit(db, user, account, amount, category, kind, side, status, eventType, parent);
    OneMoreOrdered(db, db', db'.rows[|db.rows|]);
  }

  lemma PairOrdered(db: Ledger.Db, payer: int, from: int, payee: int, to: int, amount: int, category: string)
    requires Ordered(db)
    ensures Ordered(Ledger.EmitPair(db, payer, from, payee, to, amount, category))
  {
    var db' := Ledger.EmitPair(db, payer, from, payee, to, amount, category);
    var d1 := db.(rows := db.rows + [db'.rows[|db.rows|]], nextId := db.nextId + 2);
    OneMoreOrdered(db, d1, db'.rows[|db.rows|]);
    OneMoreOrdered(d1, db', db'.rows[|db.rows| + 1]);
  }

  lemma InternalOrdered(db: Ledger.Db, user: int, from: int, to: int, amount: int)
    requires Ordered(db)
    ensures Ordered(Ledger.InternalTransfer(db, user, from, to, amount).0)
  {
  }

  lemma PayVendorOrdered(db: Ledger.Db, user: int, id: int, amount: int, cleared: bool)
    requires Ordered(db)
    ensures Ordered(Ledger.PayVendor(db, user, id, amount, cleared).0)
  {
    match Ledger.Debit(db.accounts, id, amount)
    case Rejected(_) =>
    case Done(accounts) =>
      EmitOrdered(db.(accounts := accounts), user, id, -amount, "Bill Pay", "expense", "DEBIT",
                  Ledger.VendorStatus(cleared), "vendor.payment", None);
  }

  lemma P2POrdered(db: Ledger.Db, p: Ledger.P2P, v: Ledger.Vendors)
    requires Ordered(db)
    ensures Ordered(Ledger.ProcessP2P(db, p, v).0)
  {
    var db' := Ledger.ProcessP2P(db, p, v).0;
    if db' != db {
      var from := Ledger.FindAccount(db, p.user, p.source).value;
      if p.recipient in db.users {
        var payee := db.users[p.recipient];
        var to := Ledger.FindAccount(db, payee, None).value;
        var d1 := db.(accounts := Ledger.Add(Ledger.Add(db.accounts, from, -p.amount), to, p.amount));
        PairOrdered(d1, p.user, from, payee, to, p.amount, "p2p");
      } else {
        PayVendorOrdered(db, p.user, from, p.amount, v.cleared);
      }
    }
  }

  lemma TopUpOrdered(db: Ledger.Db, user: int, amount: int)
    requires Ordered(db)
    ensures Ordered(Ledger.AtomicTopUp(db, user, amount).0)
  {
  }

  lemma CreditOrdered(db: Ledger.Db, recipient: string, amount: int, category: string)
    requires Ordered(db)
    ensures Ordered(Ledger.AdminCredit(db, recipient, amount, category).0)
  {
  }

  lemma ScheduledOrdered(db: Ledger.Db, op: Ledger.Op)
    requires Ordered(db) && (op.ScheduledTransfer? || op.ScheduledFailure?)
    ensures Ordered(Ledger.Step(db, op).0)
  {
    match op
    case ScheduledTransfer(payer, from, payee, to, amount) =>
      if to in db.accounts && Ledger.Debit(db.accounts, from, amount).Done? {
        var d1 := db.(accounts := Ledger.Add(Ledger.Debit(db.accounts, from, amount).response, to, amount));
        PairOrdered(d1, payer, from, payee, to, amount, "P2P");
      }
    case ScheduledFailure(_, _, _) =>
  }

  lemma StepOrdered(db: Ledger.Db, op: Ledger.Op)
    requires Ordered(db)
    ensures Ordered(Ledger.Step(db, op).0)
  {
    match op
    case Internal(user, from, to, amount) => InternalOrdered(db, user, from, to, amount);
    case Pay(p, v) => P2POrdered(db, p, v);
    case TopUp(user, amount) => TopUpOrdered(db, user, amount);
    case Subscribe(_) =>
    case Credit(recipient, amount, category) => CreditOrdered(db, recipient, amount, category);
    case ScheduledVendor(user, id, amount, cleared) => PayVendorOrdered(db, user, id, amount, cleared);
    case ScheduledTransfer(_, _, _, _, _) => ScheduledOrdered(db, op);
    case ScheduledFailure(_, _, _) => ScheduledOrdered(db, op);
  }

  lemma {:induction false} RunOrdered(db: Ledger.Db, ops: seq<Ledger.Op>)
    requires Ordered(db)
    ensures Ordered(Ledger.Run(db, ops))
    decreases |ops|
  {
    if ops != [] {
      StepOrdered(db, ops[0]);
      RunOrdered(Ledger.Step(db, ops[0]).0, ops[1..]);
    }
  }

  // ---------------------------------------------------------------- the same table

  /** The transaction of a ledger row; merchant and creation time are not part of the ledger. */
  predicate IsTxOf(r: Ledger.Row, tx: Tx) {
    && tx.id == Print(r.id) && tx.parentId == Some(Print(r.parent)) && tx.accountId == r.account
    && tx.amount == r.amount && tx.category == r.category && tx.transactionType == r.transactionType
    && tx.transactionSide == r.side && tx.status == r.status
  }

  ghost predicate SameTable(rows: seq<Ledger.Row>, txs: seq<Tx>) {
    |txs| == |rows| && forall i :: 0 <= i < |rows| ==> IsTxOf(rows[i], txs[i])
  }

  lemma PrintInjective(m: nat, n: nat)
    requires Print(m) == Print(n)
    ensures m == n
  {
    ValueOfPrint(m);
    ValueOfPrint(n);
  }

  /** The transactions of a ledger run have distinct ids and terminal statuses, so nothing is due and nothing moves. */
  lemma TableIsTerminal(db: Ledger.Db, txs: seq<Tx>)
    requires Ordered(db) && SameTable(db.rows, txs)
    ensures UniqueIds(txs) && KnownStatuses(txs)
    ensures forall tx :: tx in txs ==> tx.id != "" && tx.status in TERMINAL
    ensures forall now :: SettledTxs(txs, now) == txs
  {
    forall i, j | 0 <= i < j < |txs|
      ensures txs[i].id != txs[j].id
    {
      assert IsTxOf(db.rows[i], txs[i]) && IsTxOf(db.rows[j], txs[j]);
      if txs[i].id == txs[j].id {
        PrintInjective(db.rows[i].id, db.rows[j].id);
      }
    }
    forall i | 0 <= i < |txs|
      ensures txs[i].id != "" && txs[i].status in TERMINAL && txs[i].status !in SETTLEABLE
    {
      assert IsTxOf(db.rows[i], txs[i]);
    }
    forall now
      ensures SettledTxs(txs, now) == txs
    {
      assert forall i :: 0 <= i < |txs| ==> SettledTxs(txs, now)[i] == txs[i];
    }
  }

  // ---------------------------------------------------------------- end to end

  /** The ClickHouse row tells the ledger row, column by column. */
  predicate CarriesRow(row: Ledger.Row, q: Row) {
    && q.TxRow? && q.transactionId == Str(Print(row.id)) && q.parentId == Str(Print(row.parent))
    && q.accountId == Num(row.account) && q.amount == Num(row.amount) && q.category == Str(row.category)
    && q.transactionType == Str(row.transactionType) && q.transactionSide == Str(row.side)
    && q.status == Str(row.status)
  }

  lemma ReportCarriesRow(c: Codec, row: Ledger.Row, tx: Tx, q: Row)
    requires IsTxOf(row, tx) && IsReport(c, tx, q) && row.transactionType != "" && row.status in {"cleared", "failed"}
    ensures CarriesRow(row, q)
  {
    assert |Print(row.parent)| >= 1;
  }

  lemma ArrivedCarriesRow(c: Codec, row: Ledger.Row, w: World, r: Round, tx: Tx, q: Row)
    requires Lawful(c) && TimesParse(c) && PassRun(c, w, r) && tx in SettledTxs(w.db.txs, r.now) && IsTxOf(row, tx)
    requires row.transactionType != "" && row.status in {"cleared", "failed"}
    requires q in AfterRound(c, w, r).k.rows && q !in w.k.rows && About(q, tx.id)
    ensures CarriesRow(row, q)
  {
    RoundGains(c, w, r);
    GainedAbout(c, w.k.rows, AfterRound(c, w, r).k.rows, SettledTxs(w.db.txs, r.now), tx, q);
    ReportCarriesRow(c, row, tx, q);
  }

  /** After any run of the bank, a pass of the sync checker and the delivery of what it queued, every row of the last
      week has a ClickHouse row, the legs of internal transfers included.  Every row that has arrived about it carries
      its account, amount, category, type, side and status; and where ClickHouse had nothing to the contrary, its newest
      row carries the status of the ledger. */
  lemma EveryRowArrives(c: Codec, start: Ledger.Db, ops: seq<Ledger.Op>, w: World, r: Round, i: nat)
    requires Lawful(c) && TimesParse(c) && Ordered(start) && SameTable(Ledger.Run(start, ops).rows, w.db.txs)
    requires PassRun(c, w, r)
    requires i < |w.db.txs| && w.db.txs[i].createdAt >= r.now - WINDOW
    ensures var row := Ledger.Run(start, ops).rows[i];
      var rows := AfterRound(c, w, r).k.rows;
      && HasRow(rows, Print(row.id))
      && (forall q :: q in rows && q !in w.k.rows && About(q, Print(row.id)) ==> CarriesRow(row, q))
      && (MissingOrAgreeing(w.k.rows, w.db.txs[i]) ==>
            forall q :: Newest(rows, Print(row.id), q) ==> q.status == Str(row.status))
  {
    var db := Ledger.Run(start, ops);
    RunOrdered(start, ops);
    TableIsTerminal(db, w.db.txs);
    assert IsTxOf(db.rows[i], w.db.txs[i]) && w.db.txs[i] in w.db.txs;
    WindowedArrives(c, w, r, w.db.txs[i]);
    forall q | q in AfterRound(c, w, r).k.rows && q !in w.k.rows && About(q, Print(db.rows[i].id))
      ensures CarriesRow(db.rows[i], q)
    {
      ArrivedCarriesRow(c, db.rows[i], w, r, w.db.txs[i], q);
    }
  }

  /** The hypotheses on the table hold of every run, so such a round is possible from any world whose outbox has been
      sent and whose log has been delivered. */
  lemma RoundIsPossible(c: Codec, start: Ledger.Db, ops: seq<Ledger.Op>, w: World, now: int,
                        chStatus: map<string, Json>)
    returns (r: Round)
    requires Lawful(c) && TimesParse(c) && Ordered(start) && SameTable(Ledger.Run(start, ops).rows, w.db.txs)
    requires (forall e :: e in w.db.outbox ==> !e.status.Pending?) && Drained(w.k)
    requires StatusesOf(w.k.rows, Ids(Windowed(w.db.txs, now)), chStatus)
    ensures r.now == now && r.chStatus == chStatus && PassRun(c, w, r)
  {
    RunOrdered(start, ops);
    TableIsTerminal(Ledger.Run(start, ops), w.db.txs);
    r := Round(now, chStatus, []);
    var w1 := Queued(c, w, r);
    QueuedTells(c, w, r);
    forall i: nat | i < |w1.db.outbox| && Active(w1.db.outbox, i)
      ensures EventRow(c, w1.db.outbox[i]).Some?
    {
      assert Tells(c, SettledTxs(w.db.txs, now), w1.db.outbox[i]);
      var tx :| tx in SettledTxs(w.db.txs, now)
        && w1.db.outbox[i].payload == StatusPayload(c, tx, EffectiveStatus(tx.status));
      ReportRow(c, w1.db.outbox[i], tx);
    }
    var steps := CanCatchUp(c, w1);
    r := Round(now, chStatus, steps);
  }

  // ---------------------------------------------------------------- the event of a row

  /** What `emit_transactional_event` puts into the outbox next to a row: the row, and about it the merchant, the
      e-mail addresses, a comment and what else the caller adds. */
  function EmittedPayload(row: Ledger.Row, about: map<string, Json>, at: string): map<string, Json> {
    about +
    map["transaction_id" := Str(Print(row.id)), "parent_id" := Str(Print(row.parent)),
        "account_id" := Num(row.account), "amount" := Num(row.amount), "category" := Str(row.category),
        "transaction_type" := Str(row.transactionType), "transaction_side" := Str(row.side),
        "status" := Str(row.status), "timestamp" := Str(at)]
  }

  lemma EmittedRequired(row: Ledger.Row, about: map<string, Json>, at: string)
    requires "merchant" in about
    ensures var m := EmittedPayload(row, about, at);
      && Required(Transactions) <= m.Keys && m["timestamp"] == Str(at)
      && m["transaction_id"] == Str(Print(row.id)) && m["account_id"] == Num(row.account)
      && m["amount"] == Num(row.amount) && m["category"] == Str(row.category)
  {
  }

  lemma EmittedOptional(row: Ledger.Row, about: map<string, Json>, at: string)
    ensures var m := EmittedPayload(row, about, at);
      && Get(m, "parent_id") == Str(Print(row.parent)) && Get(m, "transaction_type") == Str(row.transactionType)
      && Get(m, "transaction_side") == Str(row.side) && Get(m, "status") == Str(row.status)
  {
  }

  /** The event emitted with a ledger row becomes a ClickHouse row that tells it, column by column. */
  lemma EmittedEventCarriesRow(c: Codec, e: OutboxEvent, row: Ledger.Row, about: map<string, Json>, at: string)
    requires e.payload == EmittedPayload(row, about, at) && e.eventType != "activity_event"
    requires c.time(Str(at)).Some? && "merchant" in about && row.transactionType != "" && row.status != ""
    ensures EventRow(c, e).Some? && CarriesRow(row, EventRow(c, e).value)
  {
    var m := e.payload;
    EmittedRequired(row, about, at);
    EmittedOptional(row, about, at);
    RowExactly(c, Transactions, Obj(m));
    ColumnOf(m, "parent_id", "00000000-0000-0000-0000-000000000000");
    ColumnOf(m, "transaction_type", "expense");
    ColumnOf(m, "transaction_side", "");
    ColumnOf(m, "status", "pending");
    assert |Print(row.parent)| >= 1;
  }
}
