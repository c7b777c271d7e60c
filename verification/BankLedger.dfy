/**
 The bank's own ledger (backend/services, backend/routers): account balances, transaction rows, outbox events,
 payment requests and subscriptions, and the operations that move money.  Generated identifiers are drawn from
 a counter, so they are fresh.  An operation that is rejected leaves the database as it was.
 */
module BankLedger {
  import opened Wrappers

  datatype Account = Account(user: int, balance: int)

  datatype Row = Row(
    id: nat, parent: nat, account: int, amount: int, category: string,
    transactionType: string, side: string, status: string)

  datatype Event = TxEvent(eventType: string, txId: nat) | ActivityEvent(user: int)

  datatype PaymentRequest = PaymentRequest(target: string, amount: int, status: string)

  datatype Subscription = Subscription(user: int, amount: int)

  /** `users` maps an e-mail address to its user, `mainOf` a user to the main account. */
  datatype Db = Db(
    users: map<string, int>,
    mainOf: map<int, int>,
    accounts: map<int, Account>,
    rows: seq<Row>,
    outbox: seq<Event>,
    requests: map<int, PaymentRequest>,
    subscriptions: seq<Subscription>,
    nextId: nat)

  const SUBSCRIPTION_BLACK_PRICE := 4900

  datatype P2P = P2P(
    user: int, email: string, recipient: string, amount: int,
    source: Option<int>, requestId: Option<int>, subscriberId: Option<string>)

  /** What the vendor simulator knows and answers. */
  datatype Vendors = Vendors(emails: set<string>, cleared: bool)

  datatype Op =
    | Internal(user: int, from: int, to: int, amount: int)
    | Pay(p2p: P2P, vendors: Vendors)
    | TopUp(user: int, amount: int)
    | Subscribe(user: int)
    | Credit(recipient: string, amount: int, category: string)
    | ScheduledVendor(user: int, account: int, amount: int, cleared: bool)
    | ScheduledTransfer(payer: int, from: int, payee: int, to: int, amount: int)
    | ScheduledFailure(user: int, account: int, amount: int)

  // ---------------------------------------------------------------- balances

  function Add(accounts: map<int, Account>, id: int, cents: int): map<int, Account>
    requires id in accounts
  {
    accounts[id := accounts[id].(balance := accounts[id].balance + cents)]
  }

  /** The decision and the balances of `execute_internal_transfer`. */
  function MoveInternal(accounts: map<int, Account>, user: int, from: int, to: int, amount: int)
    : Outcome<map<int, Account>>
  {
    if amount <= 0 || from == to then Rejected(400)
    else if from !in accounts || to !in accounts || accounts[from].user != user || accounts[to].user != user
        then Rejected(404)
    else if accounts[from].balance < amount then Rejected(400)
    else Done(Add(Add(accounts, from, -amount), to, amount))
  }

  /** The decision and the balance of a debit from one account. */
  function Debit(accounts: map<int, Account>, id: int, amount: int): Outcome<map<int, Account>> {
    if id !in accounts then Rejected(404)
    else if accounts[id].balance < amount then Rejected(400)
    else Done(Add(accounts, id, -amount))
  }

  /** `_get_account_by_user`: the user's account of that id, or the main account. */
  function FindAccount(db: Db, user: int, source: Option<int>): Option<int> {
    if source.Some? && source.value != 0 then
      if source.value in db.accounts && db.accounts[source.value].user == user then source else None
    else if user in db.mainOf && db.mainOf[user] in db.accounts then Some(db.mainOf[user])
    else None
  }

  // ---------------------------------------------------------------- rows and events

  /** `emit_transactional_event`: a transaction row, its outbox event and the activity event, together. */
  function Emit(db: Db, user: int, account: int, amount: int, category: string, kind: string, side: string,
                status: string, eventType: string, parent: Option<nat>): Db {
    var id := db.nextId;
    var root := if parent.Some? then parent.value else id;
    db.(rows := db.rows + [Row(id, root, account, amount, category, kind, side, status)],
        outbox := db.outbox + [TxEvent(eventType, id), ActivityEvent(user)],
        nextId := id + 1)
  }

  /** The two legs of a transfer between users under one parent. */
  function EmitPair(db: Db, payer: int, from: int, payee: int, to: int, amount: int, category: string): Db {
    var parent := db.nextId;
    var d1 := db.(nextId := parent + 1);
    var d2 := Emit(d1, payer, from, -amount, category, "transfer", "DEBIT", "cleared", "p2p.sender", Some(parent));
    Emit(d2, payee, to, amount, category, "transfer", "CREDIT", "cleared", "p2p.recipient", Some(parent))
  }

  // ---------------------------------------------------------------- operations

  function InternalTransfer(db: Db, user: int, from: int, to: int, amount: int): (Db, Outcome<()>) {
    match MoveInternal(db.accounts, user, from, to, amount)
    case Rejected(code) => (db, Rejected(code))
    case Done(accounts) =>
      var parent := db.nextId;
      (db.(accounts := accounts,
           rows := db.rows + [
             Row(parent + 1, parent, from, -amount, "Internal Transfer", "transfer", "DEBIT", "cleared"),
             Row(parent + 2, parent, to, amount, "Internal Transfer", "transfer", "CREDIT", "cleared")],
           outbox := db.outbox + [ActivityEvent(user)],
           nextId := parent + 3),
       Done(()))
  }

  function VendorStatus(cleared: bool): string {
    if cleared then "cleared" else "failed"
  }

  /** The debit for a vendor, kept whether or not the vendor cleared the payment. */
  function PayVendor(db: Db, user: int, id: int, amount: int, cleared: bool): (Db, Outcome<()>) {
    match Debit(db.accounts, id, amount)
    case Rejected(code) => (db, Rejected(code))
    case Done(accounts) =>
      (Emit(db.(accounts := accounts), user, id, -amount, "Bill Pay", "expense", "DEBIT",
            VendorStatus(cleared), "vendor.payment", None),
       Done(()))
  }

  function VendorPayment(db: Db, user: int, amount: int, source: Option<int>, subscriberId: Option<string>,
      cleared: bool): (Db, Outcome<()>) {
    if subscriberId.None? || subscriberId.value == "" then (db, Rejected(400))
    else
      match FindAccount(db, user, source)
      case None => (db, Rejected(404))
      case Some(id) =>
        PayVendor(db, user, id, amount, cleared)
  }

  const OPEN_REQUEST := {"pending_target", "pending_requester"}

  /** `_validate_payment_request`: the error, if any. */
  function RequestError(db: Db, id: int, email: string, amount: int): Option<nat> {
    if id !in db.requests then Some(404)
    else if db.requests[id].target != email then Some(403)
    else if db.requests[id].status !in OPEN_REQUEST then Some(400)
    else if amount < db.requests[id].amount then Some(400)
    else None
  }

  predicate HasRequest(p: P2P) {
    p.requestId.Some? && p.requestId.value != 0
  }

  function MarkPaid(db: Db, id: int): Db
    requires id in db.requests
  {
    db.(requests := db.requests[id := db.requests[id].(status := "paid")])
  }

  /** The transfer to a known user, once the request it names, if any, has been validated. */
  function PayToUser(db: Db, p: P2P, payee: int): (Db, Outcome<()>)
    requires HasRequest(p) ==> p.requestId.value in db.requests
  {
    match (FindAccount(db, p.user, p.source), FindAccount(db, payee, None))
    case (Some(from), Some(to)) =>
      if db.accounts[from].balance < p.amount then (db, Rejected(400))
      else
        var d1 := db.(accounts := Add(Add(db.accounts, from, -p.amount), to, p.amount));
        var d2 := EmitPair(d1, p.user, from, payee, to, p.amount, "p2p");
        (if HasRequest(p) then MarkPaid(d2, p.requestId.value) else d2, Done(()))
    case (_, _) => (db, Rejected(404))
  }

  function ProcessP2P(db: Db, p: P2P, v: Vendors): (Db, Outcome<()>) {
    if p.amount <= 0 then (db, Rejected(422))
    else if p.recipient == p.email then (db, Rejected(400))
    else if p.recipient !in db.users then
      if p.recipient in v.emails then VendorPayment(db, p.user, p.amount, p.source, p.subscriberId, v.cleared)
      else (db, Rejected(404))
    else if HasRequest(p) && RequestError(db, p.requestId.value, p.email, p.amount).Some? then
      (db, Rejected(RequestError(db, p.requestId.value, p.email, p.amount).value))
    else PayToUser(db, p, db.users[p.recipient])
  }

  /** A top-up for an unknown user or one without a main account is dropped without an error. */
  function AtomicTopUp(db: Db, user: int, amount: int): (Db, Outcome<()>) {
    if user !in db.users.Values then (db, Done(()))
    else
      match FindAccount(db, user, None)
      case None => (db, Done(()))
      case Some(id) =>
        (Emit(db.(accounts := Add(db.accounts, id, amount)), user, id, amount, "Top-up", "deposit", "CREDIT",
              "cleared", "deposit.success", None),
         Done(()))
  }

  /** The subscription branch: the fee is taken from the main account, without a transaction row. */
  function StartSubscription(db: Db, user: int): (Db, Outcome<()>) {
    if user !in db.users.Values then (db, Done(()))
    else
      var subscribed := db.(subscriptions := db.subscriptions + [Subscription(user, SUBSCRIPTION_BLACK_PRICE)],
                            outbox := db.outbox + [ActivityEvent(user)]);
      match FindAccount(db, user, None)
      case None => (subscribed, Done(()))
      case Some(id) =>
        match Debit(db.accounts, id, SUBSCRIPTION_BLACK_PRICE)
        case Rejected(_) => (db, Rejected(500))
        case Done(accounts) => (subscribed.(accounts := accounts), Done(()))
  }

  function AdminCredit(db: Db, recipient: string, amount: int, category: string): (Db, Outcome<()>) {
    if amount <= 0 then (db, Rejected(422))
    else if recipient !in db.users then (db, Rejected(404))
    else
      match FindAccount(db, db.users[recipient], None)
      case None => (db, Rejected(404))
      case Some(id) =>
        (Emit(db.(accounts := Add(db.accounts, id, amount)), db.users[recipient], id, amount, category,
              "deposit", "CREDIT", "cleared", "transaction.created", None),
         Done(()))
  }

  /** The worker's transfer to another user, and its record of a failed attempt. */
  function TransferOnSchedule(db: Db, payer: int, from: int, payee: int, to: int, amount: int): (Db, Outcome<()>) {
    if to !in db.accounts then (db, Rejected(404))
    else
      match Debit(db.accounts, from, amount)
      case Rejected(code) => (db, Rejected(code))
      case Done(accounts) =>
        (EmitPair(db.(accounts := Add(accounts, to, amount)), payer, from, payee, to, amount, "P2P"),
         Done(()))
  }

  function FailOnSchedule(db: Db, user: int, id: int, amount: int): (Db, Outcome<()>) {
    if id !in db.accounts then (db, Rejected(404))
    else
      (Emit(db, user, id, -amount, "Transfer", "transfer", "DEBIT", "failed", "transfer.failed", None),
       Done(()))
  }

  function Step(db: Db, op: Op): (Db, Outcome<()>) {
    match op
    case Internal(user, from, to, amount) => InternalTransfer(db, user, from, to, amount)
    case Pay(p, v) => ProcessP2P(db, p, v)
    case TopUp(user, amount) => AtomicTopUp(db, user, amount)
    case Subscribe(user) => StartSubscription(db, user)
    case Credit(recipient, amount, category) => AdminCredit(db, recipient, amount, category)
    case ScheduledVendor(user, id, amount, cleared) => PayVendor(db, user, id, amount, cleared)
    case ScheduledTransfer(payer, from, payee, to, amount) => TransferOnSchedule(db, payer, from, payee, to, amount)
    case ScheduledFailure(user, id, amount) => FailOnSchedule(db, user, id, amount)
  }

  function Run(db: Db, ops: seq<Op>): Db
    decreases |ops|
  {
    if ops == [] then db else Run(Step(db, ops[0]).0, ops[1..])
  }
}
