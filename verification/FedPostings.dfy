/**
 What one request does to the gateway's master accounts (mock-fed-gateway/routers), told by what the request says:
 whose balance rises, whose falls, what is logged, and when it is accepted.
 */
module FedPostings {
  import opened Wrappers
  import opened Numerals
  import opened FedLedger

  /** The money goes from one institution to the other; no other balance and no limit changes. */
  ghost predicate Goes(s: State, s': State, from: string, to: string, cents: int) {
    && s'.institutions == s.institutions && s'.accounts.Keys == s.accounts.Keys
    && forall r :: r in s.accounts ==>
         && s'.accounts[r].limit == s.accounts[r].limit
         && s'.accounts[r].balance ==
              s.accounts[r].balance + (if r == to then cents else 0) - (if r == from then cents else 0)
  }

  /** A wire moves its amount from the sender to the receiver and is logged as settled. */
  lemma WirePosts(s: State, q: WireRequest)
    requires Step(s, Fedwire(q)).1.Done?
    ensures var s' := Step(s, Fedwire(q)).0;
      && Goes(s, s', q.sender, q.receiver, q.amount) && s'.instants == s.instants && s'.ach == s.ach
      && s'.wires == s.wires + [Wire(q.imad, q.omad, q.sender, q.receiver, q.amount, "SETTLED")]
  {
    PostBalances(s.accounts, q.sender, -q.amount, q.receiver, q.amount);
  }

  /** A wire is accepted exactly between two listed institutions, for no more than the sender's headroom, under new
      reference numbers. */
  lemma WireAcceptedExactly(s: State, q: WireRequest)
    ensures Step(s, Fedwire(q)).1.Done? <==>
      && q.amount > 0 && ValidRouting(q.sender) && ValidRouting(q.receiver)
      && q.sender in s.institutions && q.receiver in s.institutions
      && (q.sender in s.accounts ==> 0 <= s.accounts[q.sender].balance - q.amount + s.accounts[q.sender].limit)
      && (forall w :: w in s.wires ==> w.imad != q.imad && w.omad != q.omad)
    ensures Step(s, Fedwire(q)).1.Rejected? ==> Step(s, Fedwire(q)).0 == s
    ensures Step(s, Fedwire(q)).1.Rejected? ==>
      Step(s, Fedwire(q)).1.status ==
      if q.amount <= 0 || |q.sender| != 9 || |q.receiver| != 9 then 422
      else if !ValidRouting(q.sender) || !ValidRouting(q.receiver) then 400
      else if q.sender !in s.institutions || q.receiver !in s.institutions then 404
      else if q.sender in s.accounts && q.amount > s.accounts[q.sender].balance + s.accounts[q.sender].limit then 400
      else 500
  {
  }

  /** An accepted instant transfer moves its amount from the debtor to the creditor; one to a closed account is logged
      as rejected and moves nothing. */
  lemma InstantPosts(s: State, q: InstantRequest)
    ensures var (s', outcome) := Step(s, FedNow(q));
      && (outcome.Done? ==>
            && Goes(s, s', q.debtor, q.creditor, q.amount) && |s'.instants| == |s.instants| + 1
            && var t := s'.instants[|s.instants|];
               t == Instant(t.endToEndId, "CREDIT_TRANSFER", q.debtor, q.creditor, q.amount, "ACCP"))
      && (outcome.Rejected? ==> s'.accounts == s.accounts)
      && s'.wires == s.wires && s'.ach == s.ach && s.instants <= s'.instants
      && (outcome.Rejected? && s' != s ==>
            && Contains(q.creditorAccount, "0000") && |s'.instants| == |s.instants| + 1
            && s'.instants[|s.instants|].status == "RJCT")
  {
    PostBalances(s.accounts, q.debtor, -q.amount, q.creditor, q.amount);
  }

  /** An instant transfer is accepted exactly towards a participant and an account that is not closed, under a new id:
      the one it brings, or a generated one. */
  lemma InstantAcceptedExactly(s: State, q: InstantRequest, id: string)
    requires id == if q.endToEndId.Some? && q.endToEndId.value != "" then q.endToEndId.value else q.generatedId
    ensures Step(s, FedNow(q)).1.Done? <==>
      && q.amount > 0 && ValidRouting(q.debtor) && ValidRouting(q.creditor)
      && q.creditor in s.institutions && s.institutions[q.creditor].fednowParticipant
      && (forall t :: t in s.instants ==> t.endToEndId != id)
      && !Contains(q.creditorAccount, "0000")
    ensures var s' := Step(s, FedNow(q)).0;
      |s'.instants| > |s.instants| ==> s'.instants[|s.instants|].endToEndId == id
    ensures Step(s, FedNow(q)).1.Rejected? ==>
      Step(s, FedNow(q)).1.status ==
      if q.amount <= 0 || |q.debtor| != 9 || |q.creditor| != 9 then 422
      else if && ValidRouting(q.debtor) && ValidRouting(q.creditor)
              && q.creditor in s.institutions && s.institutions[q.creditor].fednowParticipant
              && exists t :: t in s.instants && t.endToEndId == id
      then 500
      else 400
  {
  }

  /** Whom an ACH entry names: the request's parties, with the two older field names and the defaults behind them. */
  lemma AchNames(s: State, q: AchRequest)
    requires |Step(s, Ach(q)).0.ach| > |s.ach|
    ensures var e := Step(s, Ach(q)).0.ach[|s.ach|];
      && (q.originator.Some? && q.originator.value != "" ==> e.originator == q.originator.value)
      && (q.originator.None? ==> e.originator == "123456780")
      && (q.receiver.Some? && q.receiver.value != "" ==> e.receiver == q.receiver.value)
      && (q.receiver.None? && q.routingNumber.Some? ==> e.receiver == q.routingNumber.value)
      && e.amount == q.amountCents && e.entryClass == q.entryClass && e.batchId.None?
  {
  }

  /** A settled debit takes the money from the receiver to the originator, any other entry brings it to the receiver;
      both need a master account.  A returned entry moves nothing. */
  lemma AchPosts(s: State, q: AchRequest)
    ensures var (s', outcome) := Step(s, Ach(q));
      && (outcome.Rejected? ==> s'.accounts == s.accounts)
      && (outcome.Done? ==>
            && |s'.ach| == |s.ach| + 1 && s'.ach[|s.ach|].status == "SETTLED"
            && var e := s'.ach[|s.ach|];
               if e.originator in s.accounts && e.receiver in s.accounts
               then if q.entryClass == "DEBIT" then Goes(s, s', e.receiver, e.originator, q.amountCents)
                    else Goes(s, s', e.originator, e.receiver, q.amountCents)
               else s'.accounts == s.accounts)
      && s'.wires == s.wires && s'.instants == s.instants && s.ach <= s'.ach
  {
    if Step(s, Ach(q)).1.Done? {
      var e := Step(s, Ach(q)).0.ach[|s.ach|];
      PostBalances(s.accounts, e.originator, AchGain(q.entryClass, q.amountCents),
                   e.receiver, -AchGain(q.entryClass, q.amountCents));
    }
  }

  /** The last two digits of an amount that trigger a return, and its code. */
  const RETURN_TRIGGERS: map<int, string> :=
    map[1 := "R01", 2 := "R02", 8 := "R08", 10 := "R10", 16 := "R16", 20 := "R20"]

  /** When an ACH entry is returned, and why: the return asked for, a receiver account with five zeros in a row, or the
      cents of the amount, in this order. */
  lemma AchReturnedExactly(cents: int, account: string, asked: Option<string>)
    ensures AchReturnCode(cents, account, asked) ==
      if asked.Some? && asked.value in {"R01", "R02", "R03", "R04", "R06", "R07", "R08", "R10", "R16", "R20"} then asked
      else if Contains(account, "00000") then Some("R03")
      else if cents % 100 in RETURN_TRIGGERS then Some(RETURN_TRIGGERS[cents % 100])
      else None
  {
  }

  /** A single entry settles exactly if its routing numbers have nine characters, the receiver is listed, and nothing
      returns it; if something does it is logged with that code, and otherwise nothing is. */
  lemma AchSettledExactly(s: State, q: AchRequest, receiver: string, account: string)
    requires q.receiver == Some(receiver)
    requires account ==
      if q.receiverAccount.Some? && q.receiverAccount.value != "" then q.receiverAccount.value
      else if q.accountNumber.Some? && q.accountNumber.value != "" then q.accountNumber.value
      else "100001"
    ensures var code := AchReturnCode(q.amountCents, account, q.simulateReturn);
      var listed :=
        && (q.originator.Some? ==> |q.originator.value| == 9)
        && (q.routingNumber.Some? ==> |q.routingNumber.value| == 9)
        && ValidRouting(receiver) && receiver in s.institutions;
      var (s', outcome) := Step(s, Ach(q));
      && (outcome.Done? <==> listed && code.None?)
      && (listed && code.Some? ==>
            && |s'.ach| == |s.ach| + 1
            && s'.ach[|s.ach|].status == "RETURNED" && s'.ach[|s.ach|].returnCode == code)
      && (!listed ==> s' == s)
      && (outcome.Rejected? ==>
            outcome.status ==
            if |receiver| != 9 || (q.originator.Some? && |q.originator.value| != 9)
               || (q.routingNumber.Some? && |q.routingNumber.value| != 9) then 422
            else if ValidRouting(receiver) && receiver !in s.institutions then 404
            else 400)
  {
  }

  /** A batch logs its entries in order, settled or returned, and moves no money at all. */
  lemma BatchPosts(s: State, batchId: string, originator: string, entries: seq<BatchEntry>, i: nat)
    requires i < |entries|
    ensures var s' := Step(s, AchBatch(batchId, originator, entries)).0;
      && s'.accounts == s.accounts && |s'.ach| == |s.ach| + |entries| && s.ach <= s'.ach
      && var e := s'.ach[|s.ach| + i];
         && e.batchId == Some(batchId) && e.originator == originator && e.receiver == entries[i].receiver
         && e.amount == entries[i].amountCents && e.entryClass == entries[i].entryClass
         && e.returnCode == AchReturnCode(entries[i].amountCents, entries[i].receiverAccount, None)
         && e.status == (if e.returnCode.Some? then "RETURNED" else "SETTLED")
  {
  }

  /** A request for payment is logged as pending between the two institutions it names, under a new id, and moves no
      money. */
  lemma RequestIsLogged(s: State, q: RfpRequest)
    ensures var (s', outcome) := Step(s, RequestForPayment(q));
      && s'.accounts == s.accounts && s'.wires == s.wires && s'.ach == s.ach
      && (outcome.Done? ==>
            && |s'.instants| == |s.instants| + 1 && s.instants <= s'.instants
            && var t := s'.instants[|s.instants|];
               && t == Instant(t.endToEndId, "REQUEST_FOR_PAYMENT", q.debtor, q.creditor, q.amount, "PEND")
               && (q.rfpId.Some? && q.rfpId.value != "" ==> t.endToEndId == q.rfpId.value)
               && forall u :: u in s.instants ==> u.endToEndId != t.endToEndId)
      && (outcome.Rejected? ==> s' == s)
  {
  }

  /** What a settled single entry adds to the statements: a debit to the originator's debits, a credit to the receiver's
      credits, and one to the originator's count; a returned one adds to the count alone. */
  lemma AchStatement(s: State, q: AchRequest, r: string)
    ensures var s' := Step(s, Ach(q)).0;
      if |s'.ach| == |s.ach| then s' == s
      else
        && |s'.ach| == |s.ach| + 1
        && var e := s'.ach[|s.ach|];
           var settled := Step(s, Ach(q)).1.Done?;
           && AchDebits(s'.ach, r) == AchDebits(s.ach, r) +
                (if settled && q.entryClass == "DEBIT" && e.originator == r then q.amountCents else 0)
           && AchCredits(s'.ach, r) == AchCredits(s.ach, r) +
                (if settled && q.entryClass == "CREDIT" && e.receiver == r then q.amountCents else 0)
           && OriginatedCount(s'.ach, r) == OriginatedCount(s.ach, r) + (if e.originator == r then 1 else 0)
  {
    var s' := Step(s, Ach(q)).0;
    if s' != s {
      assert s'.ach[..|s.ach|] == s.ach;
    }
  }

  // ---------------------------------------------------------------- routing numbers

  /** The weighted sum of all nine digits. */
  function Checksum(s: string): nat
    requires |s| == 9 && AllDigits(s)
  {
    3 * (DigitOf(s[0]) + DigitOf(s[3]) + DigitOf(s[6])) + 7 * (DigitOf(s[1]) + DigitOf(s[4]) + DigitOf(s[7]))
    + DigitOf(s[2]) + DigitOf(s[5]) + DigitOf(s[8])
  }

  lemma NextWeight(s: string, n: nat, weight: nat)
    requires n < 8 && |s| == 9 && AllDigits(s) && WEIGHTS[n] == weight
    ensures Weighted(s, n + 1) == Weighted(s, n) + DigitOf(s[n]) * weight
  {
  }

  lemma WeightedSum(s: string)
    requires |s| == 9 && AllDigits(s)
    ensures Weighted(s, 8) + DigitOf(s[8]) == Checksum(s)
  {
    NextWeight(s, 0, 3);
    NextWeight(s, 1, 7);
    NextWeight(s, 2, 1);
    NextWeight(s, 3, 3);
    NextWeight(s, 4, 7);
    NextWeight(s, 5, 1);
    NextWeight(s, 6, 3);
    NextWeight(s, 7, 7);
  }

  lemma CheckDigitExactly(total: nat, d: nat)
    requires d < 10
    ensures (10 - total % 10) % 10 == d <==> (total + d) % 10 == 0
  {
  }

  /** A routing number is valid exactly if it has nine digits, not all zero, whose weighted sum is a multiple of ten. */
  lemma RoutingExactly(s: string)
    ensures ValidRouting(s) <==> |s| == 9 && AllDigits(s) && s != "000000000" && Checksum(s) % 10 == 0
  {
    if |s| == 9 && AllDigits(s) {
      WeightedSum(s);
      CheckDigitExactly(Weighted(s, 8), DigitOf(s[8]));
    }
  }

  lemma UnitMultiples(weight: int, x: int, total: int)
    requires weight in {1, 3, 7} && -10 < x < 10 && total % 10 == 0 && (total + weight * x) % 10 == 0
    ensures x == 0
  {
    assert (weight * x) % 10 == 0;
  }

  lemma DigitsDiffer(a: char, b: char)
    requires IsDigit(a) && IsDigit(b) && a != b
    ensures DigitOf(a) != DigitOf(b)
  {
    assert '0' + (a - '0') == a && '0' + (b - '0') == b;
  }

  function WeightAt(i: nat): int {
    if i % 3 == 0 then 3 else if i % 3 == 1 then 7 else 1
  }

  lemma ChecksumChange(s: string, i: nat, c: char)
    requires |s| == 9 && AllDigits(s) && i < 9 && IsDigit(c)
    ensures AllDigits(s[i := c])
    ensures Checksum(s[i := c]) == Checksum(s) + WeightAt(i) * (DigitOf(c) - DigitOf(s[i]))
  {
    assert i in {0, 1, 2, 3, 4, 5, 6, 7, 8};
  }

  /** Changing any one character of a valid routing number makes it invalid. */
  lemma RoutingErrorIsDetected(s: string, i: nat, c: char)
    requires ValidRouting(s) && i < 9 && c != s[i]
    ensures !ValidRouting(s[i := c])
  {
    RoutingExactly(s);
    RoutingExactly(s[i := c]);
    if IsDigit(c) {
      DigitsDiffer(c, s[i]);
      ChecksumChange(s, i, c);
      if ValidRouting(s[i := c]) {
        UnitMultiples(WeightAt(i), DigitOf(c) - DigitOf(s[i]), Checksum(s));
      }
    } else {
      assert s[i := c][i] == c;
    }
  }
}
