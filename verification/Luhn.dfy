/**
 The card number check (backend/schemas/deposit.py), as in Annex B of ISO/IEC 7812-1, for numbers of any length.
 */
module Luhn {
  import opened Numerals

  /** Python's `digits[from::-2]`; a start before the first digit gives nothing. */
  function EverySecondBack(digits: seq<nat>, from: int): seq<nat>
    requires from < |digits|
    decreases from + 2
  {
    if from < 0 then [] else [digits[from]] + EverySecondBack(digits, from - 2)
  }

  function Sum(ns: seq<nat>): nat {
    if ns == [] then 0 else ns[0] + Sum(ns[1..])
  }

  /** `sum(divmod(d * 2, 10))` for each digit. */
  function DoubledSums(ns: seq<nat>): seq<nat> {
    if ns == [] then [] else [Doubled(ns[0])] + DoubledSums(ns[1..])
  }

  function Doubled(d: nat): nat {
    2 * d / 10 + 2 * d % 10
  }

  function Digits(text: string): (ds: seq<nat>)
    requires AllDigits(text)
    ensures |ds| == |text| && forall i :: 0 <= i < |ds| ==> ds[i] == DigitOf(text[i])
  {
    seq(|text|, i requires 0 <= i < |text| => DigitOf(text[i]))
  }

  function Checksum(ds: seq<nat>): nat {
    Sum(EverySecondBack(ds, |ds| - 1)) + Sum(DoubledSums(EverySecondBack(ds, |ds| - 2)))
  }

  /** `_luhn_check`: a character that is no digit is a rejected number, not an error. */
  predicate LuhnCheck(card: string) {
    AllDigits(card) && Checksum(Digits(card)) % 10 == 0
  }

  // ---------------------------------------------------------------- digit by digit

  /** What a digit adds to the checksum. */
  function Weight(d: nat, doubled: bool): nat {
    if doubled then Doubled(d) else d
  }

  /** The checksum digit by digit from the right, every second one doubled. */
  function Total(ds: seq<nat>, doubled: bool): nat {
    if ds == [] then 0 else Weight(ds[|ds| - 1], doubled) + Total(ds[..|ds| - 1], !doubled)
  }

  lemma {:induction false} SkipLast(ds: seq<nat>, from: int)
    requires ds != [] && from < |ds| - 1
    ensures EverySecondBack(ds, from) == EverySecondBack(ds[..|ds| - 1], from)
    decreases from + 2
  {
    if from >= 0 {
      SkipLast(ds, from - 2);
    }
  }

  /** The two slices together visit every digit once, alternating. */
  lemma {:induction false} ChecksumIsTotal(ds: seq<nat>)
    ensures Checksum(ds) == Total(ds, false)
    ensures Sum(DoubledSums(EverySecondBack(ds, |ds| - 1))) + Sum(EverySecondBack(ds, |ds| - 2)) == Total(ds, true)
    decreases |ds|
  {
    if ds != [] {
      var front := ds[..|ds| - 1];
      ChecksumIsTotal(front);
      SkipLast(ds, |ds| - 2);
      SkipLast(ds, |ds| - 3);
      var last, rest := ds[|ds| - 1], EverySecondBack(ds, |ds| - 3);
      assert ([last] + rest)[1..] == rest;
      assert EverySecondBack(ds, |ds| - 1) == [last] + rest;
    }
  }

  predicate DoubledAt(n: nat, i: nat, doubled: bool)
    requires i < n
  {
    if (n - 1 - i) % 2 == 0 then doubled else !doubled
  }

  /** Changing one digit changes the total by the difference of its weights. */
  lemma {:induction false} TotalUpdate(ds: seq<nat>, i: nat, d: nat, doubled: bool)
    requires i < |ds|
    ensures Total(ds[i := d], doubled) - Total(ds, doubled) ==
      Weight(d, DoubledAt(|ds|, i, doubled)) - Weight(ds[i], DoubledAt(|ds|, i, doubled))
    decreases |ds|
  {
    var front := ds[..|ds| - 1];
    assert DoubledAt(|ds|, i, doubled) == if i == |ds| - 1 then doubled else DoubledAt(|ds| - 1, i, !doubled);
    if i == |ds| - 1 {
      assert ds[i := d][..|ds| - 1] == front;
    } else {
      assert ds[i := d][..|ds| - 1] == front[i := d];
      TotalUpdate(front, i, d, !doubled);
    }
  }

  predicate Accepted(ds: seq<nat>) {
    Total(ds, false) % 10 == 0
  }

  /** The check is a statement about the total of the digits, one by one. */
  lemma CheckIsTotal(card: string)
    ensures LuhnCheck(card) <==> AllDigits(card) && Accepted(Digits(card))
  {
    if AllDigits(card) {
      ChecksumIsTotal(Digits(card));
    }
  }

  // ---------------------------------------------------------------- what the check detects

  /** Doubling a digit adds it once more, less nine from five on. */
  lemma DoubledDigit(d: nat)
    requires d < 10
    ensures Doubled(d) == if d < 5 then 2 * d else 2 * d - 9
  {
  }

  lemma SmallMultipleOfTen(n: int)
    requires -10 < n < 10
    ensures n % 10 == 0 <==> n == 0
  {
  }

  lemma DifferentWeights(x: nat, y: nat, doubled: bool)
    requires x < 10 && y < 10 && x != y
    ensures (Weight(x, doubled) - Weight(y, doubled)) % 10 != 0
  {
    DoubledDigit(x);
    DoubledDigit(y);
    SmallMultipleOfTen(Weight(x, doubled) - Weight(y, doubled));
  }

  lemma SameRemainder(t: int, u: int, difference: int)
    requires t % 10 == 0 && u - t == difference
    ensures u % 10 == 0 <==> difference % 10 == 0
  {
  }

  lemma OneDigitChanged(ds: seq<nat>, i: nat, d: nat)
    requires Accepted(ds) && i < |ds| && ds[i] < 10 && d < 10 && d != ds[i]
    ensures !Accepted(ds[i := d])
  {
    var doubled := DoubledAt(|ds|, i, false);
    TotalUpdate(ds, i, d, false);
    DifferentWeights(d, ds[i], doubled);
    SameRemainder(Total(ds, false), Total(ds[i := d], false), Weight(d, doubled) - Weight(ds[i], doubled));
  }

  /** Any change of one character of an accepted number is rejected. */
  lemma OneErrorIsDetected(card: string, i: nat, c: char)
    requires LuhnCheck(card) && i < |card| && c != card[i]
    ensures !LuhnCheck(card[i := c])
  {
    CheckIsTotal(card);
    CheckIsTotal(card[i := c]);
    if IsDigit(c) {
      assert Digits(card[i := c]) == Digits(card)[i := DigitOf(c)];
      OneDigitChanged(Digits(card), i, DigitOf(c));
    } else {
      assert card[i := c][i] == c;
    }
  }

  lemma SwapWeights(x: nat, y: nat, doubled: bool)
    requires x < 10 && y < 10
    ensures (Weight(y, doubled) - Weight(x, doubled) + Weight(x, !doubled) - Weight(y, !doubled)) % 10 == 0 <==>
      x == y || (x == 0 && y == 9) || (x == 9 && y == 0)
  {
    DoubledDigit(x);
    DoubledDigit(y);
    SmallMultipleOfTen(Weight(y, doubled) - Weight(x, doubled) + Weight(x, !doubled) - Weight(y, !doubled));
  }

  /** What a swap does to the total. */
  lemma SwapTotal(ds: seq<nat>, i: nat, j: nat)
    requires i < j < |ds|
    ensures var x, y := ds[i], ds[j];
      var p, q := DoubledAt(|ds|, i, false), DoubledAt(|ds|, j, false);
      Total(Swapped(ds, i, j), false) - Total(ds, false) == Weight(y, p) - Weight(x, p) + Weight(x, q) - Weight(y, q)
  {
    TotalUpdate(ds, i, ds[j], false);
    TotalUpdate(ds[i := ds[j]], j, ds[i], false);
  }

  lemma NeighboursAlternate(n: nat, i: nat)
    requires i + 1 < n
    ensures DoubledAt(n, i + 1, false) == !DoubledAt(n, i, false)
    ensures i + 2 < n ==> DoubledAt(n, i + 2, false) == DoubledAt(n, i, false)
  {
  }

  lemma NeighboursSwapped(ds: seq<nat>, i: nat)
    requires Accepted(ds) && i + 1 < |ds| && ds[i] < 10 && ds[i + 1] < 10
    ensures Accepted(Swapped(ds, i, i + 1)) <==>
      ds[i] == ds[i + 1] || (ds[i] == 0 && ds[i + 1] == 9) || (ds[i] == 9 && ds[i + 1] == 0)
  {
    var doubled := DoubledAt(|ds|, i, false);
    var x, y := ds[i], ds[i + 1];
    SwapTotal(ds, i, i + 1);
    NeighboursAlternate(|ds|, i);
    SwapWeights(x, y, doubled);
    SameRemainder(Total(ds, false), Total(Swapped(ds, i, i + 1), false),
                  Weight(y, doubled) - Weight(x, doubled) + Weight(x, !doubled) - Weight(y, !doubled));
  }

  function Swapped<T>(s: seq<T>, i: nat, j: nat): (r: seq<T>)
    requires i < |s| && j < |s|
    ensures |r| == |s|
  {
    s[i := s[j]][j := s[i]]
  }

  lemma SwappedDigits(card: string, i: nat, j: nat)
    requires AllDigits(card) && i < |card| && j < |card|
    ensures AllDigits(Swapped(card, i, j)) && Digits(Swapped(card, i, j)) == Swapped(Digits(card), i, j)
  {
  }

  lemma SameDigit(a: char, b: char)
    requires IsDigit(a) && IsDigit(b)
    ensures DigitOf(a) == DigitOf(b) <==> a == b
  {
    assert '0' + (a - '0') == a && '0' + (b - '0') == b;
  }

  /** Equal, or 0 and 9 in either order. */
  predicate Confusable(a: char, b: char) {
    a == b || (a == '0' && b == '9') || (a == '9' && b == '0')
  }

  lemma ConfusableDigits(a: char, b: char)
    requires IsDigit(a) && IsDigit(b)
    ensures var x, y := DigitOf(a), DigitOf(b);
      Confusable(a, b) <==> x == y || (x == 0 && y == 9) || (x == 9 && y == 0)
  {
    SameDigit(a, b);
    SameDigit(a, '0');
    SameDigit(a, '9');
    SameDigit(b, '0');
    SameDigit(b, '9');
  }

  /** Swapping two neighbours of an accepted number goes unnoticed exactly when they are equal, or 0 and 9. */
  lemma TranspositionExactly(card: string, i: nat)
    requires LuhnCheck(card) && i + 1 < |card|
    ensures LuhnCheck(Swapped(card, i, i + 1)) <==> Confusable(card[i], card[i + 1])
  {
    CheckIsTotal(card);
    CheckIsTotal(Swapped(card, i, i + 1));
    SwappedDigits(card, i, i + 1);
    NeighboursSwapped(Digits(card), i);
    ConfusableDigits(card[i], card[i + 1]);
  }

  /** Swapping two digits with one between them is never noticed. */
  lemma JumpTranspositionIsNotDetected(card: string, i: nat)
    requires LuhnCheck(card) && i + 2 < |card|
    ensures LuhnCheck(Swapped(card, i, i + 2))
  {
    CheckIsTotal(card);
    CheckIsTotal(Swapped(card, i, i + 2));
    SwappedDigits(card, i, i + 2);
    SwapTotal(Digits(card), i, i + 2);
    NeighboursAlternate(|card|, i);
  }

  // ---------------------------------------------------------------- the check digit

  function CheckDigit(body: string): (c: char)
    requires AllDigits(body)
    ensures IsDigit(c)
  {
    CharOf((10 - Total(Digits(body), true) % 10) % 10)
  }

  lemma ComplementToTen(d: nat, total: nat)
    requires d < 10
    ensures (d + total) % 10 == 0 <==> d == (10 - total % 10) % 10
  {
  }

  /** Every number has exactly one check digit that makes it accepted. */
  lemma OneCheckDigit(body: string, c: char)
    requires AllDigits(body)
    ensures LuhnCheck(body + [c]) <==> c == CheckDigit(body)
  {
    CheckIsTotal(body + [c]);
    if IsDigit(c) {
      var ds := Digits(body + [c]);
      assert ds[..|body|] == Digits(body);
      assert Total(ds, false) == DigitOf(c) + Total(Digits(body), true);
      ComplementToTen(DigitOf(c), Total(Digits(body), true));
      SameDigit(c, CheckDigit(body));
    } else {
      assert (body + [c])[|body|] == c;
    }
  }
}
