/**
 The mock Federal Reserve gateway's books (mock-fed-gateway/routers): master accounts, and the Fedwire,
 FedNow and FedACH logs.  An operation is one request handler; a rejected one leaves no trace unless the
 handler commits a rejected entry first.
 */
module FedLedger {
  import opened Numerals
  import opened Wrappers

  datatype Institution = Institution(fednowParticipant: bool)
  datatype MasterAccount = MasterAccount(balance: int, limit: int)
  datatype Wire = Wire(imad: string, omad: string, sender: string, receiver: string, amount: int, status: string)
  datatype Instant = Instant(endToEndId: string, messageType: string, debtor: string, creditor: string, amount: int,
      status: string)
  datatype AchEntry = AchEntry(
    batchId: Option<string>, originator: string, receiver: string, amount: int,
    entryClass: string, status: string, returnCode: Option<string>)

  datatype State = State(
    institutions: map<string, Institution>,
    accounts: map<string, MasterAccount>,
    wires: seq<Wire>,
    instants: seq<Instant>,
    ach: seq<AchEntry>)

  /** Generated identifiers arrive with the request. */
  datatype WireRequest = WireRequest(sender: string, receiver: string, amount: int, imad: string, omad: string)
  datatype InstantRequest = InstantRequest(
    endToEndId: Option<string>, generatedId: string, debtor: string, creditor: string, creditorAccount: string,
        amount: int)
  datatype RfpRequest = RfpRequest(rfpId: Option<string>, generatedId: string, debtor: string, creditor: string,
      amount: int)
  datatype AchRequest = AchRequest(
    originator: Option<string>, receiver: Option<string>, routingNumber: Option<string>,
    receiverAccount: Option<string>, accountNumber: Option<string>,
    amountCents: nat, entryClass: string, simulateReturn: Option<string>)
  datatype BatchEntry = BatchEntry(receiver: string, receiverAccount: string, amountCents: int, entryClass: string)

  datatype Op =
    | Fedwire(wire: WireRequest)
    | FedNow(instant: InstantRequest)
    | RequestForPayment(rfp: RfpRequest)
    | Ach(entry: AchRequest)
    | AchBatch(batchId: string, originator: string, entries: seq<BatchEntry>)
    | Adjust(routing: string, cents: int)

  // ---------------------------------------------------------------- request checks

  const WEIGHTS := [3, 7, 1, 3, 7, 1, 3, 7]

  function Weighted(s: string, n: nat): nat
    requires n <= 8 && n <= |s| && AllDigits(s)
  {
    if n == 0 then 0 else Weighted(s, n - 1) + DigitOf(s[n - 1]) * WEIGHTS[n - 1]
  }

  /** Nine digits, not all zero, with the right check digit. */
  predicate ValidRouting(s: string) {
    && |s| == 9 && AllDigits(s)
    && s != "000000000"
    && (10 - Weighted(s, 8) % 10) % 10 == DigitOf(s[8])
  }

  /** Python's `a or b` on optional strings. */
  function Or(a: Option<string>, b: string): string {
    if a.Some? && a.value != "" then a.value else b
  }

  const RETURN_CODES := {"R01", "R02", "R03", "R04", "R06", "R07", "R08", "R10", "R16", "R20"}

  function AchReturnCode(amountCents: int, receiverAccount: string, simulateReturn: Option<string>): Option<string> {
    if simulateReturn.Some? && simulateReturn.value in RETURN_CODES then simulateReturn
    else if Contains(receiverAccount, "00000") then Some("R03")
    else
      var rem := amountCents % 100;
      if rem == 1 then Some("R01")
      else if rem == 2 then Some("R02")
      else if rem == 8 then Some("R08")
      else if rem == 10 then Some("R10")
      else if rem == 16 then Some("R16")
      else if rem == 20 then Some("R20")
      else None
  }

  // ---------------------------------------------------------------- the handlers

  /** Adding to a balance, if the routing number has a master account. */
  function Post(accounts: map<string, MasterAccount>, routing: string, cents: int): map<string, MasterAccount> {
    if routing in accounts
    then accounts[routing := accounts[routing].(balance := accounts[routing].balance + cents)]
    else accounts
  }

  function OriginateFedwire(s: State, r: WireRequest): (State, Outcome<()>) {
    if |r.sender| != 9 || |r.receiver| != 9 || r.amount <= 0 then (s, Rejected(422))
    else if !ValidRouting(r.sender) || !ValidRouting(r.receiver) then (s, Rejected(400))
    else if r.sender !in s.institutions || r.receiver !in s.institutions then (s, Rejected(404))
    else if r.sender in s.accounts && r.amount > s.accounts[r.sender].balance + s.accounts[r.sender].limit
    then (s, Rejected(400))
    else if exists w :: w in s.wires && (w.imad == r.imad || w.omad == r.omad) then (s, Rejected(500))
    else
      (s.(wires := s.wires + [Wire(r.imad, r.omad, r.sender, r.receiver, r.amount, "SETTLED")],
          accounts := Post(Post(s.accounts, r.sender, -r.amount), r.receiver, r.amount)),
       Done(()))
  }

  predicate IdTaken(s: State, id: string) {
    exists t :: t in s.instants && t.endToEndId == id
  }

  function TransferFedNow(s: State, r: InstantRequest): (State, Outcome<()>) {
    var id := Or(r.endToEndId, r.generatedId);
    if |r.debtor| != 9 || |r.creditor| != 9 || r.amount <= 0 then (s, Rejected(422))
    else if !ValidRouting(r.debtor) || !ValidRouting(r.creditor) then (s, Rejected(400))
    else if r.creditor !in s.institutions || !s.institutions[r.creditor].fednowParticipant then (s, Rejected(400))
    else if IdTaken(s, id) then (s, Rejected(500))
    else if Contains(r.creditorAccount, "0000") then
      (s.(instants := s.instants + [Instant(id, "CREDIT_TRANSFER", r.debtor, r.creditor, r.amount, "RJCT")]),
          Rejected(400))
    else
      (s.(instants := s.instants + [Instant(id, "CREDIT_TRANSFER", r.debtor, r.creditor, r.amount, "ACCP")],
          accounts := Post(Post(s.accounts, r.debtor, -r.amount), r.creditor, r.amount)),
       Done(()))
  }

  function RequestPayment(s: State, r: RfpRequest): (State, Outcome<()>) {
    var id := Or(r.rfpId, r.generatedId);
    if IdTaken(s, id) then (s, Rejected(500))
    else (s.(instants := s.instants + [Instant(id, "REQUEST_FOR_PAYMENT", r.debtor, r.creditor, r.amount, "PEND")]),
        Done(()))
  }

  const DEFAULT_ORIGINATOR := "123456780"

  /** Whether an ACH entry moves money, and by how much the originator gains. */
  function AchGain(entryClass: string, amount: int): int {
    if entryClass == "DEBIT" then amount else -amount
  }

  /** A routing number that is given has nine characters. */
  predicate NineIfGiven(routing: Option<string>) {
    routing.Some? ==> |routing.value| == 9
  }

  function OriginateAch(s: State, r: AchRequest): (State, Outcome<()>) {
    var originator := Or(r.originator, DEFAULT_ORIGINATOR);
    var receiver := Or(r.receiver, Or(r.routingNumber, ""));
    var account := Or(r.receiverAccount, Or(r.accountNumber, "100001"));
    if !NineIfGiven(r.originator) || !NineIfGiven(r.receiver) || !NineIfGiven(r.routingNumber) then (s, Rejected(422))
    else if receiver == "" || !ValidRouting(receiver) then (s, Rejected(400))
    else if receiver !in s.institutions then (s, Rejected(404))
    else
      match AchReturnCode(r.amountCents, account, r.simulateReturn)
      case Some(code) =>
        (s.(ach := s.ach + [AchEntry(None, originator, receiver, r.amountCents, r.entryClass, "RETURNED", Some(code))]),
         Rejected(400))
      case None =>
        var gain := AchGain(r.entryClass, r.amountCents);
        (s.(ach := s.ach + [AchEntry(None, originator, receiver, r.amountCents, r.entryClass, "SETTLED", None)],
            accounts := if originator in s.accounts && receiver in s.accounts
                        then Post(Post(s.accounts, originator, gain), receiver, -gain)
                        else s.accounts),
         Done(()))
  }

  function BatchRow(batchId: string, originator: string, e: BatchEntry): AchEntry {
    var code := AchReturnCode(e.amountCents, e.receiverAccount, None);
    AchEntry(Some(batchId), originator, e.receiver, e.amountCents, e.entryClass,
             if code.Some? then "RETURNED" else "SETTLED", code)
  }

  function BatchRows(batchId: string, originator: string, entries: seq<BatchEntry>): seq<AchEntry> {
    seq(|entries|, i requires 0 <= i < |entries| => BatchRow(batchId, originator, entries[i]))
  }

  function AdjustMasterAccount(s: State, routing: string, cents: int): (State, Outcome<()>) {
    if routing in s.accounts then (s.(accounts := Post(s.accounts, routing, cents)), Done(())) else (s, Rejected(404))
  }

  function Step(s: State, op: Op): (State, Outcome<()>) {
    match op
    case Fedwire(r) => OriginateFedwire(s, r)
    case FedNow(r) => TransferFedNow(s, r)
    case RequestForPayment(r) => RequestPayment(s, r)
    case Ach(r) => OriginateAch(s, r)
    case AchBatch(id, originator, entries) => (s.(ach := s.ach + BatchRows(id, originator, entries)), Done(()))
    case Adjust(routing, cents) => AdjustMasterAccount(s, routing, cents)
  }

  function Run(s: State, ops: seq<Op>): State
    decreases |ops|
  {
    if ops == [] then s else Run(Step(s, ops[0]).0, ops[1..])
  }

  // ---------------------------------------------------------------- the daily statement

  function WireDebits(wires: seq<Wire>, r: string): int {
    if wires == [] then 0
    else
      var w := wires[|wires| - 1];
      WireDebits(wires[..|wires| - 1], r) + (if w.sender == r && w.status == "SETTLED" then w.amount else 0)
  }

  function WireCredits(wires: seq<Wire>, r: string): int {
    if wires == [] then 0
    else
      var w := wires[|wires| - 1];
      WireCredits(wires[..|wires| - 1], r) + (if w.receiver == r && w.status == "SETTLED" then w.amount else 0)
  }

  function NowDebits(log: seq<Instant>, r: string): int {
    if log == [] then 0
    else
      var t := log[|log| - 1];
      NowDebits(log[..|log| - 1], r) + (if t.debtor == r && t.status == "ACCP" then t.amount else 0)
  }

  function NowCredits(log: seq<Instant>, r: string): int {
    if log == [] then 0
    else
      var t := log[|log| - 1];
      NowCredits(log[..|log| - 1], r) + (if t.creditor == r && t.status == "ACCP" then t.amount else 0)
  }

  function AchDebits(log: seq<AchEntry>, r: string): int {
    if log == [] then 0
    else
      var e := log[|log| - 1];
      AchDebits(log[..|log| - 1], r) +
      (if e.originator == r && e.entryClass == "DEBIT" && e.status == "SETTLED" then e.amount else 0)
  }

  function AchCredits(log: seq<AchEntry>, r: string): int {
    if log == [] then 0
    else
      var e := log[|log| - 1];
      AchCredits(log[..|log| - 1], r) +
      (if e.receiver == r && e.entryClass == "CREDIT" && e.status == "SETTLED" then e.amount else 0)
  }

  function OriginatedCount(log: seq<AchEntry>, r: string): nat {
    if log == [] then 0
    else OriginatedCount(log[..|log| - 1], r) + (if log[|log| - 1].originator == r then 1 else 0)
  }

  /** The opening balance a statement reports: the balance with the wires and instant transfers taken back. */
  function Opening(s: State, r: string): int
    requires r in s.accounts
  {
    s.accounts[r].balance + WireDebits(s.wires, r) + NowDebits(s.instants, r)
    - WireCredits(s.wires, r) - NowCredits(s.instants, r)
  }

  // ---------------------------------------------------------------- balance agrees with history

  /** What the ACH log says the balance of `r` moved by: settled entries outside batches whose two parties both
      have master accounts.  A debit pulls the money from the receiver to the originator, any other entry pushes it
      the other way. */
  function AchBooked(log: seq<AchEntry>, accounts: set<string>, r: string): int {
    if log == [] then 0
    else
      var e := log[|log| - 1];
      AchBooked(log[..|log| - 1], accounts, r) +
      (if e.batchId.None? && e.status == "SETTLED" && e.originator in accounts && e.receiver in accounts
       then if e.entryClass == "DEBIT"
            then (if e.originator == r then e.amount else 0) - (if e.receiver == r then e.amount else 0)
            else (if e.receiver == r then e.amount else 0) - (if e.originator == r then e.amount else 0)
       else 0)
  }

  /** The net of the three logs for one routing number. */
  function Booked(s: State, r: string): int {
    WireCredits(s.wires, r) - WireDebits(s.wires, r) + NowCredits(s.instants, r) - NowDebits(s.instants, r)
    + AchBooked(s.ach, s.accounts.Keys, r)
  }

  function Adjustments(ops: seq<Op>, r: string): int {
    if ops == [] then 0
    else (if ops[0].Adjust? && ops[0].routing == r then ops[0].cents else 0) + Adjustments(ops[1..], r)
  }

  lemma AppendWire(log: seq<Wire>, w: Wire, r: string)
    ensures WireDebits(log + [w], r) ==
        WireDebits(log, r) + (if w.sender == r && w.status == "SETTLED" then w.amount else 0)
    ensures WireCredits(log + [w], r) ==
        WireCredits(log, r) + (if w.receiver == r && w.status == "SETTLED" then w.amount else 0)
  {
    assert (log + [w])[..|log|] == log;
  }

  lemma AppendInstant(log: seq<Instant>, t: Instant, r: string)
    ensures NowDebits(log + [t], r) == NowDebits(log, r) + (if t.debtor == r && t.status == "ACCP" then t.amount else 0)
    ensures NowCredits(log + [t], r) ==
        NowCredits(log, r) + (if t.creditor == r && t.status == "ACCP" then t.amount else 0)
  {
    assert (log + [t])[..|log|] == log;
  }

  lemma AppendAch(log: seq<AchEntry>, e: AchEntry, accounts: set<string>, r: string)
    ensures AchBooked(log + [e], accounts, r) == AchBooked(log, accounts, r) +
      (if e.batchId.None? && e.status == "SETTLED" && e.originator in accounts && e.receiver in accounts
       then (if e.originator == r then AchGain(e.entryClass, e.amount) else 0)
            - (if e.receiver == r then AchGain(e.entryClass, e.amount) else 0)
       else 0)
  {
    assert (log + [e])[..|log|] == log;
  }

  lemma {:induction false} BatchBooksNothing(log: seq<AchEntry>, batch: seq<AchEntry>, accounts: set<string>, r: string)
    requires forall i :: 0 <= i < |batch| ==> batch[i].batchId.Some?
    ensures AchBooked(log + batch, accounts, r) == AchBooked(log, accounts, r)
  {
    if batch == [] {
      assert log + batch == log;
    } else {
      var n := |batch| - 1;
      assert log + batch == (log + batch[..n]) + [batch[n]];
      BatchBooksNothing(log, batch[..n], accounts, r);
      AppendAch(log + batch[..n], batch[n], accounts, r);
    }
  }

  /** The accounts are the same ones with the same limits, and the balance of `r` has moved by what the logs
      gained plus `extra`. */
  ghost predicate Books(s: State, s': State, r: string, extra: int)
    requires r in s.accounts
  {
    && s'.accounts.Keys == s.accounts.Keys && s'.institutions == s.institutions
    && (forall q :: q in s.accounts ==> s'.accounts[q].limit == s.accounts[q].limit)
    && s'.accounts[r].balance - s.accounts[r].balance == Booked(s', r) - Booked(s, r) + extra
  }

  lemma PostBalances(accounts: map<string, MasterAccount>, a: string, x: int, b: string, y: int)
    ensures var m := Post(Post(accounts, a, x), b, y);
      && m.Keys == accounts.Keys
      && forall q :: q in accounts ==> m[q] == accounts[q].(balance := accounts[q].balance
           + (if q == a then x else 0) + (if q == b then y else 0))
  {
  }

  /** Two postings and a log entry that accounts for both. */
  lemma PostedBooks(s: State, s': State, a: string, x: int, b: string, y: int, r: string)
    requires r in s.accounts && s'.institutions == s.institutions && s'.accounts == Post(Post(s.accounts, a, x), b, y)
    requires Booked(s', r) - Booked(s, r) == (if r == a then x else 0) + (if r == b then y else 0)
    ensures Books(s, s', r, 0)
  {
    PostBalances(s.accounts, a, x, b, y);
  }

  lemma WireBooked(s: State, s': State, w: Wire, r: string)
    requires s'.wires == s.wires + [w] && s'.instants == s.instants && s'.ach == s.ach
    requires s'.accounts.Keys == s.accounts.Keys
    requires w.status == "SETTLED"
    ensures Booked(s', r) - Booked(s, r) ==
        (if r == w.sender then -w.amount else 0) + (if r == w.receiver then w.amount else 0)
  {
    AppendWire(s.wires, w, r);
  }

  lemma PostedWireBooks(s: State, w: Wire, r: string)
    requires r in s.accounts && w.status == "SETTLED"
    ensures Books(s, s.(wires := s.wires + [w],
        accounts := Post(Post(s.accounts, w.sender, -w.amount), w.receiver, w.amount)), r, 0)
  {
    var s' := s.(wires := s.wires + [w], accounts := Post(Post(s.accounts, w.sender, -w.amount), w.receiver, w.amount));
    PostBalances(s.accounts, w.sender, -w.amount, w.receiver, w.amount);
    WireBooked(s, s', w, r);
    PostedBooks(s, s', w.sender, -w.amount, w.receiver, w.amount, r);
  }

  lemma WireBooks(s: State, q: WireRequest, r: string)
    requires r in s.accounts
    ensures Books(s, OriginateFedwire(s, q).0, r, 0)
  {
    var s' := OriginateFedwire(s, q).0;
    if s' != s {
      PostedWireBooks(s, Wire(q.imad, q.omad, q.sender, q.receiver, q.amount, "SETTLED"), r);
    }
  }

  lemma InstantBooked(s: State, s': State, t: Instant, r: string)
    requires s'.instants == s.instants + [t] && s'.wires == s.wires && s'.ach == s.ach
    requires s'.accounts.Keys == s.accounts.Keys
    ensures Booked(s', r) - Booked(s, r) ==
      if t.status == "ACCP" then (if r == t.debtor then -t.amount else 0) + (if r == t.creditor then t.amount else 0)
          else 0
  {
    AppendInstant(s.instants, t, r);
  }

  lemma LoggedInstantBooks(s: State, t: Instant, r: string)
    requires r in s.accounts && t.status != "ACCP"
    ensures Books(s, s.(instants := s.instants + [t]), r, 0)
  {
    InstantBooked(s, s.(instants := s.instants + [t]), t, r);
  }

  lemma PostedInstantBooks(s: State, t: Instant, r: string)
    requires r in s.accounts && t.status == "ACCP"
    ensures Books(s, s.(instants := s.instants + [t],
        accounts := Post(Post(s.accounts, t.debtor, -t.amount), t.creditor, t.amount)), r, 0)
  {
    var s' := s.(instants := s.instants + [t],
        accounts := Post(Post(s.accounts, t.debtor, -t.amount), t.creditor, t.amount));
    PostBalances(s.accounts, t.debtor, -t.amount, t.creditor, t.amount);
    InstantBooked(s, s', t, r);
    PostedBooks(s, s', t.debtor, -t.amount, t.creditor, t.amount, r);
  }

  lemma InstantBooks(s: State, q: InstantRequest, r: string)
    requires r in s.accounts
    ensures Books(s, TransferFedNow(s, q).0, r, 0)
  {
    var s' := TransferFedNow(s, q).0;
    if s' != s {
      var t := s'.instants[|s.instants|];
      if t.status == "ACCP" {
        PostedInstantBooks(s, t, r);
      } else {
        LoggedInstantBooks(s, t, r);
      }
    }
  }

  lemma RfpBooks(s: State, q: RfpRequest, r: string)
    requires r in s.accounts
    ensures Books(s, RequestPayment(s, q).0, r, 0)
  {
    var s' := RequestPayment(s, q).0;
    if s' != s {
      LoggedInstantBooks(s, s'.instants[|s.instants|], r);
    }
  }

  lemma LoggedAchBooks(s: State, e: AchEntry, r: string)
    requires r in s.accounts
    requires e.status != "SETTLED" || e.originator !in s.accounts || e.receiver !in s.accounts
    ensures Books(s, s.(ach := s.ach + [e]), r, 0)
  {
    AppendAch(s.ach, e, s.accounts.Keys, r);
  }

  lemma AchEntryBooked(s: State, s': State, e: AchEntry, r: string)
    requires s'.ach == s.ach + [e] && s'.wires == s.wires && s'.instants == s.instants
    requires s'.accounts.Keys == s.accounts.Keys
    requires e.status == "SETTLED" && e.batchId.None? && e.originator in s.accounts && e.receiver in s.accounts
    ensures var gain := AchGain(e.entryClass, e.amount);
      Booked(s', r) - Booked(s, r) == (if r == e.originator then gain else 0) + (if r == e.receiver then -gain else 0)
  {
    AppendAch(s.ach, e, s.accounts.Keys, r);
  }

  lemma PostedAchBooks(s: State, e: AchEntry, r: string)
    requires r in s.accounts
    requires e.status == "SETTLED" && e.batchId.None? && e.originator in s.accounts && e.receiver in s.accounts
    ensures var gain := AchGain(e.entryClass, e.amount);
      Books(s, s.(ach := s.ach + [e], accounts := Post(Post(s.accounts, e.originator, gain), e.receiver, -gain)), r, 0)
  {
    var gain := AchGain(e.entryClass, e.amount);
    var s' := s.(ach := s.ach + [e], accounts := Post(Post(s.accounts, e.originator, gain), e.receiver, -gain));
    PostBalances(s.accounts, e.originator, gain, e.receiver, -gain);
    AchEntryBooked(s, s', e, r);
    PostedBooks(s, s', e.originator, gain, e.receiver, -gain, r);
  }

  lemma AchBooks(s: State, q: AchRequest, r: string)
    requires r in s.accounts
    ensures Books(s, OriginateAch(s, q).0, r, 0)
  {
    var s' := OriginateAch(s, q).0;
    if s' != s {
      var e := s'.ach[|s.ach|];
      if e.status == "SETTLED" && e.originator in s.accounts && e.receiver in s.accounts {
        PostedAchBooks(s, e, r);
      } else {
        LoggedAchBooks(s, e, r);
      }
    }
  }

  lemma StepBooks(s: State, op: Op, r: string)
    requires r in s.accounts
    ensures Books(s, Step(s, op).0, r, if op.Adjust? && op.routing == r then op.cents else 0)
  {
    match op
    case Fedwire(q) => WireBooks(s, q, r);
    case FedNow(q) => InstantBooks(s, q, r);
    case RequestForPayment(q) => RfpBooks(s, q, r);
    case Ach(q) => AchBooks(s, q, r);
    case AchBatch(id, originator, entries) =>
      BatchBooksNothing(s.ach, BatchRows(id, originator, entries), s.accounts.Keys, r);
    case Adjust(_, _) =>
  }

  /** Balance agrees with history.  After any run of requests, accepted or rejected, every master balance has
      moved by its adjustments plus the signed fold of the settled wires, the accepted instant transfers and the
      settled single ACH entries whose two accounts both exist. */
  lemma {:induction false} BalanceAgreesWithHistory(s: State, ops: seq<Op>, r: string)
    requires r in s.accounts
    ensures var s' := Run(s, ops);
      && s'.accounts.Keys == s.accounts.Keys && s'.institutions == s.institutions
      && (forall q :: q in s.accounts ==> s'.accounts[q].limit == s.accounts[q].limit)
      && s'.accounts[r].balance == s.accounts[r].balance + Adjustments(ops, r) + Booked(s', r) - Booked(s, r)
    decreases |ops|
  {
    if ops != [] {
      StepBooks(s, ops[0], r);
      BalanceAgreesWithHistory(Step(s, ops[0]).0, ops[1..], r);
    }
  }

  lemma {:induction false} RunAppend(s: State, ops: seq<Op>, op: Op)
    ensures Run(s, ops + [op]) == Step(Run(s, ops), op).0
    decreases |ops|
  {
    if ops == [] {
      assert [op][1..] == [];
    } else {
      assert (ops + [op])[1..] == ops[1..] + [op];
      RunAppend(Step(s, ops[0]).0, ops[1..], op);
    }
  }

  /** Hence the statement's opening balance moves only with adjustments and single ACH entries. */
  lemma OpeningMovesWithAchOnly(s: State, ops: seq<Op>, r: string)
    requires r in s.accounts
    ensures r in Run(s, ops).accounts
    ensures Opening(Run(s, ops), r) - Opening(s, r) ==
      Adjustments(ops, r) + AchBooked(Run(s, ops).ach, s.accounts.Keys, r) - AchBooked(s.ach, s.accounts.Keys, r)
  {
    BalanceAgreesWithHistory(s, ops, r);
  }

  /** Any run of Fedwire, FedNow, request-for-payment and batch steps leaves the opening balance where it was. */
  lemma {:induction false} OpeningUnchanged(s: State, ops: seq<Op>, r: string)
    requires r in s.accounts && forall op :: op in ops ==> !op.Ach? && !op.Adjust?
    ensures r in Run(s, ops).accounts && Opening(Run(s, ops), r) == Opening(s, r)
    decreases |ops|
  {
    if ops != [] {
      assert ops[0] in ops;
      var s1 := Step(s, ops[0]).0;
      StepBooks(s, ops[0], r);
      if ops[0].AchBatch? {
        BatchBooksNothing(s.ach, BatchRows(ops[0].batchId, ops[0].originator, ops[0].entries), s.accounts.Keys, r);
      } else {
        assert s1.ach == s.ach;
      }
      OpeningUnchanged(s1, ops[1..], r);
    }
  }

  // ---------------------------------------------------------------- reserves

  ghost function Total(accounts: map<string, MasterAccount>): int {
    if accounts == map[] then 0
    else
      var r :| r in accounts;
      accounts[r].balance + Total(accounts - {r})
  }

  lemma {:induction false} TotalWithout(accounts: map<string, MasterAccount>, r: string)
    requires r in accounts
    ensures Total(accounts) == accounts[r].balance + Total(accounts - {r})
    decreases |accounts|
  {
    var q :| q in accounts && Total(accounts) == accounts[q].balance + Total(accounts - {q});
    if q != r {
      TotalWithout(accounts - {q}, r);
      TotalWithout(accounts - {r}, q);
      assert (accounts - {q}) - {r} == (accounts - {r}) - {q};
    }
  }

  lemma TotalAfterPost(accounts: map<string, MasterAccount>, r: string, cents: int)
    ensures Total(Post(accounts, r, cents)) == Total(accounts) + (if r in accounts then cents else 0)
  {
    if r in accounts {
      var m := Post(accounts, r, cents);
      TotalWithout(accounts, r);
      TotalWithout(m, r);
      assert m - {r} == accounts - {r};
    }
  }

  /** Every institution of the directory has a master account. */
  ghost predicate Seeded(s: State) {
    s.institutions.Keys <= s.accounts.Keys
  }

  /** What an operation adds to the reserves as a whole: an adjustment, or an accepted instant transfer whose
      debtor has no master account. */
  function Injected(s: State, op: Op): int {
    match op
    case FedNow(q) => if Step(s, op).1.Done? && q.debtor !in s.accounts then q.amount else 0
    case Adjust(routing, cents) => if routing in s.accounts then cents else 0
    case _ => 0
  }

  function InjectedBy(s: State, ops: seq<Op>): int
    decreases |ops|
  {
    if ops == [] then 0 else Injected(s, ops[0]) + InjectedBy(Step(s, ops[0]).0, ops[1..])
  }

  lemma FedwireTotal(s: State, q: WireRequest)
    requires Seeded(s)
    ensures Total(Step(s, Fedwire(q)).0.accounts) == Total(s.accounts)
  {
    TotalAfterPost(s.accounts, q.sender, -q.amount);
    TotalAfterPost(Post(s.accounts, q.sender, -q.amount), q.receiver, q.amount);
  }

  lemma FedNowTotal(s: State, q: InstantRequest)
    requires Seeded(s)
    ensures Total(Step(s, FedNow(q)).0.accounts) == Total(s.accounts) + Injected(s, FedNow(q))
  {
    TotalAfterPost(s.accounts, q.debtor, -q.amount);
    TotalAfterPost(Post(s.accounts, q.debtor, -q.amount), q.creditor, q.amount);
  }

  lemma AchTotal(s: State, q: AchRequest)
    requires Seeded(s)
    ensures Total(Step(s, Ach(q)).0.accounts) == Total(s.accounts)
  {
    var originator := Or(q.originator, DEFAULT_ORIGINATOR);
    var receiver := Or(q.receiver, Or(q.routingNumber, ""));
    var gain := AchGain(q.entryClass, q.amountCents);
    TotalAfterPost(s.accounts, originator, gain);
    TotalAfterPost(Post(s.accounts, originator, gain), receiver, -gain);
  }

  lemma StepSeeded(s: State, op: Op)
    requires Seeded(s)
    ensures Seeded(Step(s, op).0) && Step(s, op).0.accounts.Keys == s.accounts.Keys
  {
  }

  lemma StepTotal(s: State, op: Op)
    requires Seeded(s)
    ensures Total(Step(s, op).0.accounts) == Total(s.accounts) + Injected(s, op)
  {
    match op
    case Fedwire(q) => FedwireTotal(s, q);
    case FedNow(q) => FedNowTotal(s, q);
    case Ach(q) => AchTotal(s, q);
    case Adjust(routing, cents) => TotalAfterPost(s.accounts, routing, cents);
    case _ =>
  }

  /** Reserve conservation.  From a seeded state the sum of the master balances changes only by adjustments and by
      accepted instant transfers from a debtor without a master account; Fedwire and ACH keep it. */
  lemma {:induction false} ReservesConserved(s: State, ops: seq<Op>)
    requires Seeded(s)
    ensures Total(Run(s, ops).accounts) == Total(s.accounts) + InjectedBy(s, ops)
    ensures (forall op :: op in ops ==> !op.FedNow? && !op.Adjust?) ==> Total(Run(s, ops).accounts) == Total(s.accounts)
    decreases |ops|
  {
    if ops != [] {
      assert ops[0] in ops;
      assert forall op :: op in ops[1..] ==> op in ops;
      StepTotal(s, ops[0]);
      StepSeeded(s, ops[0]);
      ReservesConserved(Step(s, ops[0]).0, ops[1..]);
    }
  }

  // ---------------------------------------------------------------- books in order

  /** What the books say after the operations `ops` on `opening`: the same accounts and limits, every balance moved by
      its adjustments and its settled log entries, the sum of all by what was injected. */
  ghost predicate Agrees(opening: State, ops: seq<Op>, s: State) {
    && Seeded(s) && s.accounts.Keys == opening.accounts.Keys
    && (forall r :: r in s.accounts ==>
          && s.accounts[r].limit == opening.accounts[r].limit
          && s.accounts[r].balance ==
             opening.accounts[r].balance + Adjustments(ops, r) + Booked(s, r) - Booked(opening, r))
    && Total(s.accounts) == Total(opening.accounts) + InjectedBy(opening, ops)
  }

  lemma {:induction false} RunKeepsAccounts(s: State, ops: seq<Op>)
    requires Seeded(s)
    ensures Seeded(Run(s, ops)) && Run(s, ops).accounts.Keys == s.accounts.Keys
    decreases |ops|
  {
    if ops != [] {
      StepSeeded(s, ops[0]);
      RunKeepsAccounts(Step(s, ops[0]).0, ops[1..]);
    }
  }

  lemma RunAgrees(opening: State, ops: seq<Op>)
    requires Seeded(opening)
    ensures Agrees(opening, ops, Run(opening, ops))
  {
    RunKeepsAccounts(opening, ops);
    ReservesConserved(opening, ops);
    forall r | r in opening.accounts
      ensures var s := Run(opening, ops);
        && r in s.accounts && s.accounts[r].limit == opening.accounts[r].limit
        && s.accounts[r].balance ==
            opening.accounts[r].balance + Adjustments(ops, r) + Booked(s, r) - Booked(opening, r)
    {
      BalanceAgreesWithHistory(opening, ops, r);
    }
  }

  // ---------------------------------------------------------------- daylight overdraft

  /** No balance is below minus its daylight limit. */
  ghost predicate WithinLimits(s: State) {
    forall r :: r in s.accounts ==> s.accounts[r].balance >= -s.accounts[r].limit
  }

  lemma FedwireWithinLimits(s: State, q: WireRequest)
    requires WithinLimits(s)
    ensures WithinLimits(OriginateFedwire(s, q).0)
  {
    var s' := OriginateFedwire(s, q).0;
    PostBalances(s.accounts, q.sender, -q.amount, q.receiver, q.amount);
    if s' != s {
      assert s'.accounts == Post(Post(s.accounts, q.sender, -q.amount), q.receiver, q.amount);
    }
  }

  /** Any run of Fedwire requests keeps every balance at or above minus its daylight limit. */
  lemma {:induction false} FedwireRunWithinLimits(s: State, ops: seq<Op>)
    requires WithinLimits(s) && forall op :: op in ops ==> op.Fedwire?
    ensures WithinLimits(Run(s, ops))
    decreases |ops|
  {
    if ops != [] {
      assert ops[0] in ops;
      FedwireWithinLimits(s, ops[0].wire);
      FedwireRunWithinLimits(Step(s, ops[0]).0, ops[1..]);
    }
  }

  /** FedNow has no such check: an accepted transfer keeps the limits exactly when the debtor's headroom covers it, the
      debtor has no account here, or debtor and creditor are the same institution. */
  lemma FedNowWithinLimitsExactly(s: State, q: InstantRequest)
    requires WithinLimits(s) && TransferFedNow(s, q).1.Done?
    ensures WithinLimits(TransferFedNow(s, q).0) <==>
      || q.debtor == q.creditor || q.debtor !in s.accounts
      || q.amount <= s.accounts[q.debtor].balance + s.accounts[q.debtor].limit
  {
    PostBalances(s.accounts, q.debtor, -q.amount, q.creditor, q.amount);
    var s' := TransferFedNow(s, q).0;
    assert s'.accounts == Post(Post(s.accounts, q.debtor, -q.amount), q.creditor, q.amount);
    if q.debtor in s.accounts && q.debtor != q.creditor {
      assert s'.accounts[q.debtor].balance == s.accounts[q.debtor].balance - q.amount;
    }
  }

  /** The next digit counts 3, 7 or 1 times, in turn. */
  lemma WeightedStep(s: string, n: nat)
    requires 0 < n <= 8 && n <= |s| && AllDigits(s)
    ensures var d := DigitOf(s[n - 1]);
      Weighted(s, n) == Weighted(s, n - 1) + if n % 3 == 1 then 3 * d else if n % 3 == 2 then 7 * d else d
  {
    assert WEIGHTS[n - 1] == if n % 3 == 1 then 3 else if n % 3 == 2 then 7 else 1;
  }

  lemma WeightedEight(s: string)
    requires |s| == 9 && AllDigits(s)
    ensures Weighted(s, 8) ==
      3 * DigitOf(s[0]) + 7 * DigitOf(s[1]) + DigitOf(s[2]) + 3 * DigitOf(s[3]) + 7 * DigitOf(s[4]) + DigitOf(s[5])
      + 3 * DigitOf(s[6]) + 7 * DigitOf(s[7])
  {
    assert Weighted(s, 8) == Weighted(s, 6) + 3 * DigitOf(s[6]) + 7 * DigitOf(s[7]) by {
      WeightedStep(s, 7);
      WeightedStep(s, 8);
    }
    assert Weighted(s, 6) == Weighted(s, 3) + 3 * DigitOf(s[3]) + 7 * DigitOf(s[4]) + DigitOf(s[5]) by {
      WeightedStep(s, 4);
      WeightedStep(s, 5);
      WeightedStep(s, 6);
    }
    assert Weighted(s, 3) == 3 * DigitOf(s[0]) + 7 * DigitOf(s[1]) + DigitOf(s[2]) by {
      WeightedStep(s, 1);
      WeightedStep(s, 2);
      WeightedStep(s, 3);
    }
  }

  /** Two routing numbers of the directory. */
  lemma KnownRouting1()
    ensures ValidRouting("021000021")
  {
    WeightedEight("021000021");
    assert Weighted("021000021", 8) == 29 && "021000021"[1] == '2';
  }

  lemma KnownRouting2()
    ensures ValidRouting("011000028")
  {
    WeightedEight("011000028");
    assert Weighted("011000028", 8) == 22 && "011000028"[1] == '1';
  }

  /** An accepted transfer can break a limit: a cent more than the headroom is enough. */
  lemma FedNowBreaksALimit() returns (s: State, q: InstantRequest)
    ensures WithinLimits(s) && TransferFedNow(s, q).1.Done? && !WithinLimits(TransferFedNow(s, q).0)
  {
    KnownRouting1();
    KnownRouting2();
    assert "021000021"[1] != "011000028"[1];
    s := State(map["021000021" := Institution(true), "011000028" := Institution(true)],
               map["021000021" := MasterAccount(0, 500), "011000028" := MasterAccount(0, 500)], [], [], []);
    q := InstantRequest(None, "FEDNOW-1", "021000021", "011000028", "12", 501);
    assert !Contains(q.creditorAccount, "0000");
    FedNowWithinLimitsExactly(s, q);
  }
}
