/**
 The gateway as its handlers run: tables updated in place, each handler equal to its operation of the books.  A ghost
 history of the requests since the gateway was seeded ties every balance to the logs.
 */
module FedGateway {
  import opened Wrappers
  import opened FedLedger

  const SEED_BALANCE := 1_000_000_000
  const SEED_LIMIT := 500_000_000

  datatype Statement = Statement(
    opening: int, closing: int, achDebits: int, achCredits: int, fedwireDebits: int, fedwireCredits: int,
    fednowDebits: int, fednowCredits: int, transactionsCount: nat)

  datatype BatchSummary = BatchSummary(settled: nat, returned: nat, debits: int, credits: int)

  function SettledCount(rows: seq<AchEntry>): nat {
    if rows == [] then 0
    else SettledCount(rows[..|rows| - 1]) + (if rows[|rows| - 1].status == "SETTLED" then 1 else 0)
  }

  function DebitTotal(entries: seq<BatchEntry>): int {
    if entries == [] then 0
    else
      var e := entries[|entries| - 1];
      DebitTotal(entries[..|entries| - 1]) + (if e.entryClass == "DEBIT" then e.amountCents else 0)
  }

  function AmountTotal(entries: seq<BatchEntry>): int {
    if entries == [] then 0 else AmountTotal(entries[..|entries| - 1]) + entries[|entries| - 1].amountCents
  }

  /** The books after seeding: new institutions join, and every institution without a master account gets one. */
  function SeededState(s: State, data: map<string, Institution>): State {
    var institutions := data + s.institutions;
    s.(institutions := institutions,
       accounts := (map r | r in institutions :: MasterAccount(SEED_BALANCE, SEED_LIMIT)) + s.accounts)
  }

  /** Seeding gives every institution an account, keeps every existing balance, and adds nothing the second time. */
  lemma SeedingIsIdempotent(s: State, data: map<string, Institution>)
    ensures var s' := SeededState(s, data);
      && Seeded(s') && SeededState(s', data) == s'
      && (forall r :: r in s.accounts ==> r in s'.accounts && s'.accounts[r] == s.accounts[r])
      && (forall r :: r in s'.accounts && r !in s.accounts ==>
            s'.accounts[r].balance == 1_000_000_000 && s'.accounts[r].limit == 500_000_000)
      && (WithinLimits(s) ==> WithinLimits(s'))
  {
  }

  /** The insert loop of both seeding stages: keys that already exist are left alone. */
  method AddMissing<V>(had: map<string, V>, data: map<string, V>) returns (all: map<string, V>, added: nat)
    ensures all == data + had && added == |all| - |had|
  {
    all, added := had, 0;
    var todo := data.Keys;
    while todo != {}
      invariant todo <= data.Keys
      invariant forall r :: r in all <==> r in had || (r in data && r !in todo)
      invariant forall r :: r in had ==> all[r] == had[r]
      invariant forall r :: r in all && r !in had ==> all[r] == data[r]
      invariant |all| == |had| + added
      decreases |todo|
    {
      var r :| r in todo;
      if r !in all {
        all := all[r := data[r]];
        added := added + 1;
      }
      todo := todo - {r};
    }
  }

  lemma BatchStep(batchId: string, originator: string, entries: seq<BatchEntry>, i: nat)
    requires i < |entries|
    ensures var rows := BatchRows(batchId, originator, entries);
      && rows[i] == BatchRow(batchId, originator, entries[i])
      && rows[..i + 1] == rows[..i] + [rows[i]]
      && SettledCount(rows[..i + 1]) == SettledCount(rows[..i]) + (if rows[i].status == "SETTLED" then 1 else 0)
    ensures AmountTotal(entries[..i + 1]) == AmountTotal(entries[..i]) + entries[i].amountCents
    ensures DebitTotal(entries[..i + 1]) ==
            DebitTotal(entries[..i]) + (if entries[i].entryClass == "DEBIT" then entries[i].amountCents else 0)
  {
    var rows := BatchRows(batchId, originator, entries);
    assert entries[..i + 1][..i] == entries[..i] && rows[..i + 1][..i] == rows[..i];
  }

  class Gateway {
    var institutions: map<string, Institution>
    var accounts: map<string, MasterAccount>
    var wires: seq<Wire>
    var instants: seq<Instant>
    var ach: seq<AchEntry>
    ghost var opening: State
    ghost var history: seq<Op>

    /** The tables are what the requests since seeding made of them. */
    ghost predicate Valid()
      reads this
    {
      Seeded(opening) && View() == Run(opening, history) && Agrees(opening, history, Run(opening, history))
    }

    /** So every balance agrees with the logs, and the sum of all with what was injected. */
    lemma BalancesAgree()
      requires Valid()
      ensures Agrees(opening, history, View())
    {
      RunAgrees(opening, history);
    }

    ghost function View(): State
      reads this
    {
      State(institutions, accounts, wires, instants, ach)
    }

    constructor ()
      ensures View() == State(map[], map[], [], [], []) && opening == View() && history == [] && Valid()
    {
      opening, history := State(map[], map[], [], [], []), [];
      institutions, accounts, wires, instants, ach := map[], map[], [], [], [];
    }

    method AddSeedRows(data: map<string, Institution>) returns (institutionsAdded: nat, accountsAdded: nat)
      modifies this`institutions, this`accounts
      ensures View() == SeededState(old(View()), data)
      ensures institutionsAdded == |institutions| - |old(institutions)|
      ensures accountsAdded == |accounts| - |old(accounts)|
    {
      institutions, institutionsAdded := AddMissing(institutions, data);
      var seeds := map r | r in institutions :: MasterAccount(SEED_BALANCE, SEED_LIMIT);
      accounts, accountsAdded := AddMissing(accounts, seeds);
    }

    method SeedAllData(data: map<string, Institution>) returns (institutionsAdded: nat, accountsAdded: nat)
      modifies this`institutions, this`accounts, this`opening, this`history
      ensures View() == SeededState(old(View()), data) && opening == View() && history == [] && Valid()
      ensures institutionsAdded == |institutions| - |old(institutions)|
      ensures accountsAdded == |accounts| - |old(accounts)|
    {
      SeedingIsIdempotent(View(), data);
      institutionsAdded, accountsAdded := AddSeedRows(data);
      opening, history := View(), [];
      RunAgrees(opening, []);
    }

    /** The request joins the history; the tables are to follow. */
    ghost method Record(op: Op)
      requires Valid()
      modifies this`history
      ensures history == old(history) + [op]
      ensures Run(opening, history) == Step(View(), op).0 && Agrees(opening, history, Run(opening, history))
    {
      RunAppend(opening, history, op);
      history := history + [op];
      RunAgrees(opening, history);
    }

    method AddTo(routing: string, cents: int)
      modifies this`accounts
      ensures accounts == Post(old(accounts), routing, cents)
    {
      if routing in accounts {
        var account := accounts[routing];
        accounts := accounts[routing := account.(balance := account.balance + cents)];
      }
    }

    /** The handler's checks, its log entry and both balances. */
    method SettleWire(r: WireRequest) returns (outcome: Outcome<()>)
      modifies this`accounts, this`wires, this`instants, this`ach
      ensures (View(), outcome) == FedLedger.OriginateFedwire(old(View()), r)
    {
      if |r.sender| != 9 || |r.receiver| != 9 || r.amount <= 0 {
        return Rejected(422);
      }
      if !ValidRouting(r.sender) || !ValidRouting(r.receiver) {
        return Rejected(400);
      }
      if r.sender !in institutions || r.receiver !in institutions {
        return Rejected(404);
      }
      if r.sender in accounts {
        var available := accounts[r.sender].balance + accounts[r.sender].limit;
        if r.amount > available {
          return Rejected(400);
        }
      }
      if exists w :: w in wires && (w.imad == r.imad || w.omad == r.omad) {
        return Rejected(500);
      }
      wires := wires + [Wire(r.imad, r.omad, r.sender, r.receiver, r.amount, "SETTLED")];
      AddTo(r.sender, -r.amount);
      AddTo(r.receiver, r.amount);
      return Done(());
    }

    method OriginateFedwire(r: WireRequest) returns (outcome: Outcome<()>)
      requires Valid()
      modifies this
      ensures (View(), outcome) == FedLedger.OriginateFedwire(old(View()), r)
      ensures Valid() && history == old(history) + [Fedwire(r)]
      ensures old(WithinLimits(View())) ==> WithinLimits(View())
    {
      Record(Fedwire(r));
      if WithinLimits(View()) {
        FedwireWithinLimits(View(), r);
      }
      outcome := SettleWire(r);
    }

    /** The handler's checks, its log entry, and both balances of an accepted transfer. */
    method SettleInstant(r: InstantRequest) returns (outcome: Outcome<()>)
      modifies this`accounts, this`wires, this`instants, this`ach
      ensures (View(), outcome) == FedLedger.TransferFedNow(old(View()), r)
    {
      if |r.debtor| != 9 || |r.creditor| != 9 || r.amount <= 0 {
        return Rejected(422);
      }
      if !ValidRouting(r.debtor) || !ValidRouting(r.creditor) {
        return Rejected(400);
      }
      if r.creditor !in institutions || !institutions[r.creditor].fednowParticipant {
        return Rejected(400);
      }
      var id := Or(r.endToEndId, r.generatedId);
      if exists t :: t in instants && t.endToEndId == id {
        return Rejected(500);
      }
      if Contains(r.creditorAccount, "0000") {
        instants := instants + [Instant(id, "CREDIT_TRANSFER", r.debtor, r.creditor, r.amount, "RJCT")];
        return Rejected(400);
      }
      instants := instants + [Instant(id, "CREDIT_TRANSFER", r.debtor, r.creditor, r.amount, "ACCP")];
      AddTo(r.debtor, -r.amount);
      AddTo(r.creditor, r.amount);
      return Done(());
    }

    method TransferFedNow(r: InstantRequest) returns (outcome: Outcome<()>)
      requires Valid()
      modifies this
      ensures (View(), outcome) == FedLedger.TransferFedNow(old(View()), r)
      ensures Valid() && history == old(history) + [FedNow(r)]
    {
      Record(FedNow(r));
      outcome := SettleInstant(r);
    }

    method RequestForPayment(r: RfpRequest) returns (outcome: Outcome<()>)
      requires Valid()
      modifies this
      ensures (View(), outcome) == RequestPayment(old(View()), r)
      ensures Valid() && history == old(history) + [FedLedger.RequestForPayment(r)]
      ensures old(WithinLimits(View())) ==> WithinLimits(View())
    {
      Record(FedLedger.RequestForPayment(r));
      var id := Or(r.rfpId, r.generatedId);
      if exists t :: t in instants && t.endToEndId == id {
        return Rejected(500);
      }
      instants := instants + [Instant(id, "REQUEST_FOR_PAYMENT", r.debtor, r.creditor, r.amount, "PEND")];
      return Done(());
    }

    /** The handler's checks, its log entry, and both balances of a settled entry. */
    method SettleAch(r: AchRequest) returns (outcome: Outcome<()>)
      modifies this`accounts, this`wires, this`instants, this`ach
      ensures (View(), outcome) == FedLedger.OriginateAch(old(View()), r)
    {
      var originator := Or(r.originator, DEFAULT_ORIGINATOR);
      var receiver := Or(r.receiver, Or(r.routingNumber, ""));
      var account := Or(r.receiverAccount, Or(r.accountNumber, "100001"));
      if !NineIfGiven(r.originator) || !NineIfGiven(r.receiver) || !NineIfGiven(r.routingNumber) {
        return Rejected(422);
      }
      if receiver == "" || !ValidRouting(receiver) {
        return Rejected(400);
      }
      if receiver !in institutions {
        return Rejected(404);
      }
      var code := AchReturnCode(r.amountCents, account, r.simulateReturn);
      if code.Some? {
        ach := ach + [AchEntry(None, originator, receiver, r.amountCents, r.entryClass, "RETURNED", code)];
        return Rejected(400);
      }
      ach := ach + [AchEntry(None, originator, receiver, r.amountCents, r.entryClass, "SETTLED", None)];
      if originator in accounts && receiver in accounts {
        var amount: int := r.amountCents;
        if r.entryClass == "DEBIT" {
          AddTo(originator, amount);
          AddTo(receiver, -amount);
        } else {
          AddTo(originator, -amount);
          AddTo(receiver, amount);
        }
      }
      return Done(());
    }

    method OriginateAch(r: AchRequest) returns (outcome: Outcome<()>)
      requires Valid()
      modifies this
      ensures (View(), outcome) == FedLedger.OriginateAch(old(View()), r)
      ensures Valid() && history == old(history) + [Ach(r)]
    {
      Record(Ach(r));
      outcome := SettleAch(r);
    }

    /** The handler's loop. */
    method LogBatch(batchId: string, originator: string, entries: seq<BatchEntry>) returns (summary: BatchSummary)
      modifies this`ach
      ensures View() == Step(old(View()), AchBatch(batchId, originator, entries)).0
      ensures summary.settled == SettledCount(BatchRows(batchId, originator, entries))
      ensures summary.settled + summary.returned == |entries|
      ensures summary.debits == DebitTotal(entries) && summary.debits + summary.credits == AmountTotal(entries)
    {
      var settled, returned, debits, credits := 0, 0, 0, 0;
      ghost var rows := BatchRows(batchId, originator, entries);
      var i := 0;
      while i < |entries|
        invariant 0 <= i <= |entries|
        invariant ach == old(ach) + rows[..i]
        invariant settled == SettledCount(rows[..i]) && settled + returned == i
        invariant debits == DebitTotal(entries[..i]) && debits + credits == AmountTotal(entries[..i])
      {
        var e := entries[i];
        BatchStep(batchId, originator, entries, i);
        if e.entryClass == "DEBIT" {
          debits := debits + e.amountCents;
        } else {
          credits := credits + e.amountCents;
        }
        var row := BatchRow(batchId, originator, e);
        if row.status == "SETTLED" {
          settled := settled + 1;
        } else {
          returned := returned + 1;
        }
        ach := ach + [row];
        i := i + 1;
      }
      assert rows[..i] == rows && entries[..i] == entries;
      summary := BatchSummary(settled, returned, debits, credits);
    }

    /** A batch logs every entry and counts them, and moves no balance. */
    method OriginateAchBatch(batchId: string, originator: string, entries: seq<BatchEntry>)
      returns (summary: BatchSummary)
      requires Valid()
      modifies this`ach, this`history
      ensures View() == Step(old(View()), AchBatch(batchId, originator, entries)).0
      ensures summary.settled == SettledCount(BatchRows(batchId, originator, entries))
      ensures summary.settled + summary.returned == |entries|
      ensures summary.debits == DebitTotal(entries) && summary.debits + summary.credits == AmountTotal(entries)
      ensures Valid() && history == old(history) + [AchBatch(batchId, originator, entries)]
      ensures old(WithinLimits(View())) ==> WithinLimits(View())
    {
      Record(AchBatch(batchId, originator, entries));
      summary := LogBatch(batchId, originator, entries);
    }

    method AdjustMasterAccount(routing: string, cents: int) returns (outcome: Outcome<()>)
      requires Valid()
      modifies this`accounts, this`history
      ensures (View(), outcome) == FedLedger.AdjustMasterAccount(old(View()), routing, cents)
      ensures Valid() && history == old(history) + [Adjust(routing, cents)]
    {
      Record(Adjust(routing, cents));
      if routing !in accounts {
        return Rejected(404);
      }
      AddTo(routing, cents);
      return Done(());
    }

    /** A statement's opening balance is the one the gateway opened with, moved by the adjustments and the single ACH
        entries since, and by nothing else; its two balances differ by the wires and instant transfers it lists. */
    method GetDailyStatement(routing: string) returns (r: Outcome<Statement>)
      requires Valid()
      ensures r.Done? <==> routing in accounts
      ensures r.Done? ==> var st := r.response;
        && st.opening == Opening(opening, routing) + Adjustments(history, routing)
             + AchBooked(ach, accounts.Keys, routing) - AchBooked(opening.ach, accounts.Keys, routing)
        && st.closing == accounts[routing].balance
        && st.closing - st.opening == st.fedwireCredits - st.fedwireDebits + st.fednowCredits - st.fednowDebits
        && st.fedwireDebits == WireDebits(wires, routing) && st.fedwireCredits == WireCredits(wires, routing)
        && st.fednowDebits == NowDebits(instants, routing) && st.fednowCredits == NowCredits(instants, routing)
        && st.achDebits == AchDebits(ach, routing) && st.achCredits == AchCredits(ach, routing)
        && st.transactionsCount == OriginatedCount(ach, routing)
    {
      if routing !in accounts {
        return Rejected(404);
      }
      OpeningMovesWithAchOnly(opening, history, routing);
      var balance := accounts[routing].balance;
      var wireDeb, wireCred := WireDebits(wires, routing), WireCredits(wires, routing);
      var nowDeb, nowCred := NowDebits(instants, routing), NowCredits(instants, routing);
      var startBalance := balance + wireDeb + nowDeb - wireCred - nowCred;
      return Done(Statement(startBalance, balance, AchDebits(ach, routing), AchCredits(ach, routing),
                            wireDeb, wireCred, nowDeb, nowCred, OriginatedCount(ach, routing)));
    }
  }
}
