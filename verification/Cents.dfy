/**
 Cents as text: the backend's pair (backend/money_utils.py) and the frontend's (frontend/lib/transactionUtils.ts), on
 whole numbers of cents.  None is Python's ValueError and JavaScript's NaN.
 */
module Cents {
  import opened Wrappers
  import opened Numerals

  // ---------------------------------------------------------------- the parts of the text

  /** Everything before the first `c`. */
  function Before(s: string, c: char): (r: string)
    ensures |r| <= |s| && s[..|r|] == r && c !in r && (|r| < |s| ==> s[|r|] == c)
  {
    if s == "" || s[0] == c then "" else [s[0]] + Before(s[1..], c)
  }

  /** `s.split('.')[1]`, if there is a point. */
  function SecondPart(s: string): Option<string> {
    var dollars := Before(s, '.');
    if |dollars| == |s| then None else Some(Before(s[|dollars| + 1..], '.'))
  }

  /** Padded with zeros to two characters and cut after them. */
  function TwoChars(s: string): (r: string)
    ensures |r| == 2
  {
    if |s| == 0 then "00" else if |s| == 1 then s + "0" else s[..2]
  }

  function OrElse(s: string, other: string): string {
    if s == "" then other else s
  }

  /** The part before the point, a zero if there is none. */
  function FirstPart(s: string): (r: string)
    ensures r != ""
  {
    OrElse(Before(s, '.'), "0")
  }

  /** The dollars without their sign. */
  function DollarsOf(s: string): string {
    if FirstPart(s)[0] == '-' then FirstPart(s)[1..] else FirstPart(s)
  }

  /** The two characters that stand for the cents. */
  function CentsOf(s: string): string {
    TwoChars(match SecondPart(s) case None => "00" case Some(c) => c)
  }

  /** The parser both languages share, up to how they read an integer. */
  function Read(s: string, toInt: string -> Option<int>): Option<int> {
    if s == "" || s == "." then Some(0)
    else
      match (toInt(DollarsOf(s)), toInt(CentsOf(s)))
      case (Some(d), Some(c)) => Some(if FirstPart(s)[0] == '-' then -(100 * d + c) else 100 * d + c)
      case (_, _) => None
  }

  // ---------------------------------------------------------------- Python

  function TwoDigits(n: nat): (s: string)
    requires n < 100
    ensures |s| == 2 && AllDigits(s)
  {
    [CharOf(n / 10), CharOf(n % 10)]
  }

  function Abs(c: int): nat {
    if c < 0 then -c else c
  }

  function PyFromCents(c: int): string {
    (if c < 0 then "-" else "") + Print(Abs(c) / 100) + "." + TwoDigits(Abs(c) % 100)
  }

  function PyToCents(amount: string): Option<int> {
    Read(Trim(Remove(amount, ','), PySpace), PyInt)
  }

  // ---------------------------------------------------------------- TypeScript

  function ThreeDigits(n: nat): (s: string)
    requires n < 1000
    ensures |s| == 3 && AllDigits(s)
  {
    [CharOf(n / 100), CharOf(n / 10 % 10), CharOf(n % 10)]
  }

  /** `toLocaleString('en-US')` of a whole number. */
  function Grouped(n: nat): string {
    if n < 1000 then Print(n) else Grouped(n / 1000) + "," + ThreeDigits(n % 1000)
  }

  function TsFromCents(c: int): string {
    (if c < 0 then "-" else "") + Grouped(Abs(c) / 100) + "." + TwoDigits(Abs(c) % 100)
  }

  function TsToCents(amount: string): Option<int> {
    Read(Trim(Remove(amount, ','), JsSpace), JsParseInt)
  }

  function FormatCurrency(c: Option<int>, showSymbol: bool): string {
    match c
    case None => if showSymbol then "$0.00" else "0.00"
    case Some(c) =>
      var text := TsFromCents(c);
      if !showSymbol then text
      else if text[0] == '-' then "-$" + text[1..]
      else "$" + text
  }

  // ---------------------------------------------------------------- grouping

  lemma PrintStep(n: nat)
    requires n >= 10
    ensures Print(n) == Print(n / 10) + [CharOf(n % 10)]
  {
  }

  /** The last three digits of 1000 k + 100 a + 10 b + c. */
  lemma LastThree(k: nat, a: nat, b: nat, c: nat)
    requires a < 10 && b < 10 && c < 10
    ensures var n := 1000 * k + 100 * a + 10 * b + c;
      && n % 10 == c && n / 10 == 100 * k + 10 * a + b
      && n / 10 % 10 == b && n / 10 / 10 == 10 * k + a
      && n / 10 / 10 % 10 == a && n / 10 / 10 / 10 == k
  {
  }

  lemma PrintOfThree(k: nat, a: nat, b: nat, c: nat)
    requires k > 0 && a < 10 && b < 10 && c < 10
    ensures Print(1000 * k + 100 * a + 10 * b + c) == Print(k) + [CharOf(a), CharOf(b), CharOf(c)]
  {
    var n := 1000 * k + 100 * a + 10 * b + c;
    LastThree(k, a, b, c);
    PrintStep(n);
    PrintStep(n / 10);
    PrintStep(n / 10 / 10);
  }

  lemma ThreeParts(r: nat)
    requires r < 1000
    ensures r / 100 < 10 && r == 100 * (r / 100) + 10 * (r / 10 % 10) + r % 10
  {
    assert r / 10 / 10 == r / 100;
  }

  lemma PrintThree(n: nat)
    requires n >= 1000
    ensures Print(n) == Print(n / 1000) + ThreeDigits(n % 1000)
  {
    var k, r := n / 1000, n % 1000;
    ThreeParts(r);
    PrintOfThree(k, r / 100, r / 10 % 10, r % 10);
  }

  lemma NoCommaInDigits(s: string)
    requires AllDigits(s)
    ensures Remove(s, ',') == s
  {
    RemoveAbsent(s, ',');
  }

  /** Grouping adds commas and nothing else. */
  lemma {:induction false} GroupedWithoutCommas(n: nat)
    ensures Remove(Grouped(n), ',') == Print(n)
  {
    if n < 1000 {
      NoCommaInDigits(Print(n));
    } else {
      GroupedWithoutCommas(n / 1000);
      NoCommaInDigits(ThreeDigits(n % 1000));
      RemoveConcat(Grouped(n / 1000) + ",", ThreeDigits(n % 1000), ',');
      RemoveConcat(Grouped(n / 1000), ",", ',');
      PrintThree(n);
    }
  }

  predicate CommaAt(s: string, i: nat)
    requires i < |s|
  {
    s[i] == ',' <==> (|s| - 1 - i) % 4 == 3
  }

  /** Counting from the right, exactly every fourth character is a comma, and the first character is none. */
  lemma {:induction false} CommasEveryThreeDigits(n: nat)
    ensures Grouped(n) != "" && Grouped(n)[0] != ','
    ensures forall i :: 0 <= i < |Grouped(n)| ==> CommaAt(Grouped(n), i)
  {
    if n < 1000 {
      ShortPrint(n);
      assert AllDigits(Print(n));
    } else {
      CommasEveryThreeDigits(n / 1000);
      OneMoreGroup(Grouped(n / 1000), ThreeDigits(n % 1000));
    }
  }

  lemma OneMoreGroup(front: string, group: string)
    requires |group| == 3 && AllDigits(group) && forall i :: 0 <= i < |front| ==> CommaAt(front, i)
    ensures forall i :: 0 <= i < |front| + 4 ==> CommaAt(front + "," + group, i)
  {
    var s := front + "," + group;
    forall i | 0 <= i < |s|
      ensures CommaAt(s, i)
    {
      if i < |front| {
        assert CommaAt(front, i) && s[i] == front[i] && |s| - 1 - i == |front| - 1 - i + 4;
      } else if i > |front| {
        assert s[i] == group[i - |front| - 1];
      }
    }
  }

  lemma ShortPrint(n: nat)
    requires n < 1000
    ensures |Print(n)| <= 3
  {
    if n >= 10 {
      PrintStep(n);
      if n >= 100 {
        PrintStep(n / 10);
      }
    }
  }

  /** The two printers agree up to the commas. */
  lemma SameTextButCommas(c: int)
    ensures Remove(TsFromCents(c), ',') == PyFromCents(c) == Remove(PyFromCents(c), ',')
  {
    var sign := if c < 0 then "-" else "";
    var dollars, rest := Abs(c) / 100, "." + TwoDigits(Abs(c) % 100);
    RemoveAbsent(sign, ',');
    RemoveAbsent(rest, ',');
    GroupedWithoutCommas(dollars);
    NoCommaInDigits(Print(dollars));
    assert TsFromCents(c) == sign + Grouped(dollars) + rest;
    assert PyFromCents(c) == sign + Print(dollars) + rest;
    RemoveConcat(sign + Grouped(dollars), rest, ',');
    RemoveConcat(sign, Grouped(dollars), ',');
    RemoveConcat(sign + Print(dollars), rest, ',');
    RemoveConcat(sign, Print(dollars), ',');
  }

  // ---------------------------------------------------------------- round trips

  lemma {:induction false} BeforePoint(a: string, c: char, rest: string)
    requires c !in a
    ensures Before(a + [c] + rest, c) == a && Before(a, c) == a
  {
    if a != "" {
      assert (a + [c] + rest)[1..] == a[1..] + [c] + rest;
      BeforePoint(a[1..], c, rest);
    }
  }

  /** What a reader of plain digits makes of the printed text. */
  ghost predicate ReadsDigits(toInt: string -> Option<int>) {
    forall s {:trigger toInt(s)} :: AllDigits(s) ==> toInt(s) == if s == "" then None else Some(Value(s))
  }

  lemma PartsOfPrinted(c: int)
    ensures var first := (if c < 0 then "-" else "") + Print(Abs(c) / 100);
      Before(PyFromCents(c), '.') == first && SecondPart(PyFromCents(c)) == Some(TwoDigits(Abs(c) % 100))
  {
    var dollars, cents := Print(Abs(c) / 100), TwoDigits(Abs(c) % 100);
    var first := (if c < 0 then "-" else "") + dollars;
    assert PyFromCents(c) == first + ['.'] + cents;
    assert '.' !in first;
    BeforePoint(first, '.', cents);
    BeforePoint(cents, '.', "");
    assert PyFromCents(c)[|first| + 1..] == cents;
  }

  lemma SignOfPrinted(c: int)
    ensures var dollars := Print(Abs(c) / 100);
      var first := (if c < 0 then "-" else "") + dollars;
      first != "" && (first[0] == '-' <==> c < 0) && (if first[0] == '-' then first[1..] else first) == dollars
  {
    assert IsDigit(Print(Abs(c) / 100)[0]);
  }

  /** Reading a text with a point, in terms of its parts. */
  lemma ReadParts(s: string, toInt: string -> Option<int>, first: string, cents: string)
    requires |s| > 1 && Before(s, '.') == first != "" && SecondPart(s) == Some(cents) && |cents| == 2
    requires toInt(if first[0] == '-' then first[1..] else first).Some? && toInt(cents).Some?
    ensures var total := 100 * toInt(if first[0] == '-' then first[1..] else first).value + toInt(cents).value;
      Read(s, toInt) == Some(if first[0] == '-' then -total else total)
  {
    assert FirstPart(s) == first && CentsOf(s) == cents;
    assert DollarsOf(s) == if first[0] == '-' then first[1..] else first;
  }

  lemma ReadPrinted(c: int, toInt: string -> Option<int>)
    requires ReadsDigits(toInt)
    ensures Read(PyFromCents(c), toInt) == Some(c)
  {
    var dollars, cents := Print(Abs(c) / 100), TwoDigits(Abs(c) % 100);
    PartsOfPrinted(c);
    SignOfPrinted(c);
    assert toInt(dollars) == Some(Abs(c) / 100) by {
      ValueOfPrint(Abs(c) / 100);
    }
    assert toInt(cents) == Some(Abs(c) % 100) by {
      TwoDigitsValue(Abs(c) % 100);
    }
    ReadParts(PyFromCents(c), toInt, (if c < 0 then "-" else "") + dollars, cents);
  }

  lemma TwoDigitsValue(n: nat)
    requires n < 100
    ensures Value(TwoDigits(n)) == n
  {
    ValueConcat([CharOf(n / 10)], CharOf(n % 10));
    ValueConcat("", CharOf(n / 10));
    assert "" + [CharOf(n / 10)] == [CharOf(n / 10)];
    assert TwoDigits(n) == [CharOf(n / 10)] + [CharOf(n % 10)];
  }

  lemma PrintedIsTrimmed(c: int, space: char -> bool)
    requires !space('-') && forall d :: IsDigit(d) ==> !space(d)
    ensures Trim(PyFromCents(c), space) == PyFromCents(c)
  {
    var s := PyFromCents(c);
    var cents := TwoDigits(Abs(c) % 100);
    assert s[|s| - 1] == cents[1];
    assert IsDigit(s[0]) || s[0] == '-';
    NothingToTrim(s, space);
  }

  /** Each parser reads back what either printer prints, for every number of cents: through the commas, and with the
      sign kept on amounts below a dollar. */
  lemma CentsRoundTrip(c: int)
    ensures PyToCents(PyFromCents(c)) == Some(c) && TsToCents(TsFromCents(c)) == Some(c)
    ensures PyToCents(TsFromCents(c)) == Some(c) && TsToCents(PyFromCents(c)) == Some(c)
  {
    SameTextButCommas(c);
    PrintedIsTrimmed(c, PySpace);
    PrintedIsTrimmed(c, JsSpace);
    BothReadDigits();
    ReadPrinted(c, PyInt);
    ReadPrinted(c, JsParseInt);
  }

  /** Different amounts print differently, in both languages and with the currency symbol. */
  lemma PrintingIsInjective(b: int, c: int)
    requires TsFromCents(b) == TsFromCents(c) || PyFromCents(b) == PyFromCents(c) ||
      FormatCurrency(Some(b), true) == FormatCurrency(Some(c), true)
    ensures b == c
  {
    CentsRoundTrip(b);
    CentsRoundTrip(c);
    if FormatCurrency(Some(b), true) == FormatCurrency(Some(c), true) {
      WithoutSymbol(b);
      WithoutSymbol(c);
    }
  }

  /** Taking the symbol out of a formatted amount leaves the plain text. */
  lemma WithoutSymbol(c: int)
    ensures Remove(FormatCurrency(Some(c), true), '$') == TsFromCents(c)
  {
    var text := TsFromCents(c);
    NoSymbol(Abs(c) / 100);
    RemoveAbsent(text, '$');
    if text[0] == '-' {
      RemoveConcat("-$", text[1..], '$');
      RemoveAbsent(text[1..], '$');
      assert "-$"[1..] == "$" && "-" + text[1..] == text;
      assert Remove("-$", '$') == "-";
    } else {
      RemoveConcat("$", text, '$');
    }
  }

  lemma {:induction false} NoSymbol(n: nat)
    ensures '$' !in Grouped(n)
  {
    if n >= 1000 {
      NoSymbol(n / 1000);
    }
  }

  /** No amount at all is shown as zero. */
  lemma NothingIsShownAsZero(showSymbol: bool)
    ensures FormatCurrency(None, showSymbol) == FormatCurrency(Some(0), showSymbol)
  {
    assert Print(0) == "0" && TwoDigits(0) == "00";
    assert TsFromCents(0) == "0" + "." + "00" == "0.00";
    assert "$" + "0.00" == "$0.00";
  }

  // ---------------------------------------------------------------- the number read

  /** The cents that decimal places stand for: the first two of them, a missing one being 0. */
  function Hundredths(places: string): nat
    requires AllDigits(places)
  {
    if |places| == 0 then 0
    else if |places| == 1 then 10 * DigitOf(places[0])
    else 10 * DigitOf(places[0]) + DigitOf(places[1])
  }

  lemma ValueOfTwo(a: char, b: char)
    requires IsDigit(a) && IsDigit(b)
    ensures Value([a, b]) == 10 * DigitOf(a) + DigitOf(b)
  {
    ValueConcat("", a);
    ValueConcat([a], b);
    assert "" + [a] == [a] && [a] + [b] == [a, b];
  }

  /** The parts of an amount written as sign, dollars, point and decimal places. */
  lemma PartsOfDecimal(sign: string, dollars: string, places: string)
    requires sign in {"", "-"} && AllDigits(dollars) && AllDigits(places)
    ensures var s := sign + dollars + "." + places;
      && Before(s, '.') == sign + dollars && SecondPart(s) == Some(places)
      && AllDigits(CentsOf(s)) && CentsOf(s) != "" && Value(CentsOf(s)) == Hundredths(places)
  {
    var s, first := sign + dollars + "." + places, sign + dollars;
    assert s == first + ['.'] + places && '.' !in first && '.' !in places;
    BeforePoint(first, '.', places);
    BeforePoint(places, '.', "");
    assert s[|first| + 1..] == places;
    if |places| == 0 {
      ValueOfTwo('0', '0');
    } else if |places| == 1 {
      assert places + "0" == [places[0], '0'];
      ValueOfTwo(places[0], '0');
    } else {
      assert places[..2] == [places[0], places[1]];
      ValueOfTwo(places[0], places[1]);
    }
  }

  lemma DollarsOfDecimal(sign: string, dollars: string, s: string)
    requires sign in {"", "-"} && AllDigits(dollars) && Before(s, '.') == sign + dollars
    ensures FirstPart(s)[0] == '-' <==> sign == "-"
    ensures DollarsOf(s) == if sign == "" && dollars == "" then "0" else dollars
  {
    if sign == "-" {
      assert FirstPart(s) == sign + dollars && (sign + dollars)[1..] == dollars;
    } else {
      assert sign + dollars == dollars;
    }
  }

  /** Reading a text in terms of its sign, dollars and cents. */
  lemma ReadsParts(s: string, toInt: string -> Option<int>, sign: string, dollars: string, cents: string)
    requires ReadsDigits(toInt) && sign in {"", "-"} && AllDigits(dollars) && AllDigits(cents) && cents != ""
    requires s != "" && (s == "." ==> sign == "" && Value(dollars) == 0 == Value(cents) && dollars != "")
    requires DollarsOf(s) == dollars && CentsOf(s) == cents && (FirstPart(s)[0] == '-' <==> sign == "-")
    ensures var amount := 100 * Value(dollars) + Value(cents);
      Read(s, toInt) == if dollars == "" then None else Some(if sign == "-" then -amount else amount)
  {
    assert toInt(dollars) == if dollars == "" then None else Some(Value(dollars));
    assert toInt(cents) == Some(Value(cents));
  }

  lemma ZeroIsZero()
    ensures Value("0") == 0
  {
    assert "0"[..0] == "";
  }

  lemma DecimalText(sign: string, dollars: string, places: string, s: string)
    requires sign in {"", "-"} && AllDigits(dollars) && AllDigits(places) && s == sign + dollars + "." + places
    ensures s != "" && (s == "." ==> sign == dollars == places == "") && (FirstPart(s)[0] == '-' <==> sign == "-")
    ensures DollarsOf(s) == if sign == "" && dollars == "" then "0" else dollars
    ensures AllDigits(CentsOf(s)) && CentsOf(s) != "" && Value(CentsOf(s)) == Hundredths(places)
  {
    assert |s| == |sign| + |dollars| + 1 + |places|;
    PartsOfDecimal(sign, dollars, places);
    DollarsOfDecimal(sign, dollars, s);
  }

  lemma ReadGivenParts(sign: string, dollars: string, places: string, s: string, toInt: string -> Option<int>)
    requires ReadsDigits(toInt) && sign in {"", "-"} && AllDigits(dollars) && AllDigits(places)
    requires s != "" && s != "." && DollarsOf(s) == dollars && (FirstPart(s)[0] == '-' <==> sign == "-")
    requires AllDigits(CentsOf(s)) && CentsOf(s) != "" && Value(CentsOf(s)) == Hundredths(places)
    ensures var amount := 100 * Value(dollars) + Hundredths(places);
      Read(s, toInt) == if dollars == "" then None else Some(if sign == "-" then -amount else amount)
  {
    ReadsParts(s, toInt, sign, dollars, CentsOf(s));
  }

  lemma ReadWithDollars(sign: string, dollars: string, places: string, s: string, toInt: string -> Option<int>)
    requires ReadsDigits(toInt) && sign in {"", "-"} && AllDigits(dollars) && AllDigits(places)
    requires s == sign + dollars + "." + places && (sign == "-" || dollars != "")
    ensures var amount := 100 * Value(dollars) + Hundredths(places);
      Read(s, toInt) == if dollars == "" then None else Some(if sign == "-" then -amount else amount)
  {
    DecimalText(sign, dollars, places, s);
    ReadGivenParts(sign, dollars, places, s, toInt);
  }

  lemma ReadWithoutDollars(places: string, s: string, toInt: string -> Option<int>)
    requires ReadsDigits(toInt) && AllDigits(places) && s == "." + places
    ensures Read(s, toInt) == Some(Hundredths(places))
  {
    assert s == "" + "" + "." + places;
    DecimalText("", "", places, s);
    ZeroIsZero();
    var dollars := DollarsOf(s);
    ReadsParts(s, toInt, "", dollars, CentsOf(s));
  }

  lemma ReadDecimal(sign: string, dollars: string, places: string, s: string, toInt: string -> Option<int>)
    requires ReadsDigits(toInt) && sign in {"", "-"} && AllDigits(dollars) && AllDigits(places)
    requires s == sign + dollars + "." + places
    ensures var amount := 100 * Value(dollars) + Hundredths(places);
      Read(s, toInt) == if sign == "-" then (if dollars == "" then None else Some(-amount)) else Some(amount)
  {
    if sign == "" && dollars == "" {
      assert s == "." + places;
      ReadWithoutDollars(places, s, toInt);
    } else {
      ReadWithDollars(sign, dollars, places, s, toInt);
    }
  }

  lemma DecimalIsTrimmed(s: string, space: char -> bool)
    requires s != "" && !space('-') && !space('.') && forall d :: IsDigit(d) ==> !space(d)
    requires forall i :: 0 <= i < |s| ==> IsDigit(s[i]) || s[i] in {'-', '.'}
    ensures Trim(Remove(s, ','), space) == s
  {
    RemoveAbsent(s, ',');
    NothingToTrim(s, space);
  }

  lemma BothReadDigits()
    ensures ReadsDigits(PyInt) && ReadsDigits(JsParseInt)
  {
    forall s | AllDigits(s)
      ensures PyInt(s) == JsParseInt(s) == if s == "" then None else Some(Value(s))
    {
      PyIntOfDigits(s);
      ParseIntOfDigits(s);
    }
  }

  /** The number both parsers read from dollars, a point and decimal places behind an optional minus: the dollars and
      the first two places, in cents.  Missing dollars are 0, except behind a minus, where they are an error. */
  lemma ParsersReadTheNumber(sign: string, dollars: string, places: string)
    requires sign in {"", "-"} && AllDigits(dollars) && AllDigits(places)
    ensures var s := sign + dollars + "." + places;
      var amount := 100 * Value(dollars) + Hundredths(places);
      PyToCents(s) == TsToCents(s) ==
        if sign == "-" then (if dollars == "" then None else Some(-amount)) else Some(amount)
  {
    var s := sign + dollars + "." + places;
    DecimalIsTrimmed(s, PySpace);
    DecimalIsTrimmed(s, JsSpace);
    BothReadDigits();
    ReadDecimal(sign, dollars, places, s, PyInt);
    ReadDecimal(sign, dollars, places, s, JsParseInt);
  }

  lemma PartsOfWhole(sign: string, dollars: string, s: string)
    requires sign in {"", "-"} && AllDigits(dollars) && dollars != "" && s == sign + dollars
    ensures s != "" && s != "." && DollarsOf(s) == dollars && (FirstPart(s)[0] == '-' <==> sign == "-")
    ensures AllDigits(CentsOf(s)) && CentsOf(s) != "" && Value(CentsOf(s)) == 0
  {
    assert '.' !in s && '.' in ".";
    BeforePoint(s, '.', "");
    DollarsOfDecimal(sign, dollars, s);
    ValueOfTwo('0', '0');
    assert "00" == ['0', '0'];
  }

  lemma ReadWhole(sign: string, dollars: string, s: string, toInt: string -> Option<int>)
    requires ReadsDigits(toInt) && sign in {"", "-"} && AllDigits(dollars) && dollars != "" && s == sign + dollars
    ensures Read(s, toInt) == Some(if sign == "-" then -100 * Value(dollars) else 100 * Value(dollars))
  {
    PartsOfWhole(sign, dollars, s);
    ReadsParts(s, toInt, sign, dollars, CentsOf(s));
  }

  /** Without a point both read whole dollars. */
  lemma ParsersReadWholeDollars(sign: string, dollars: string)
    requires sign in {"", "-"} && AllDigits(dollars) && dollars != ""
    ensures var s := sign + dollars;
      PyToCents(s) == TsToCents(s) == Some(if sign == "-" then -100 * Value(dollars) else 100 * Value(dollars))
  {
    var s := sign + dollars;
    DecimalIsTrimmed(s, PySpace);
    DecimalIsTrimmed(s, JsSpace);
    BothReadDigits();
    ReadWhole(sign, dollars, s, PyInt);
    ReadWhole(sign, dollars, s, JsParseInt);
  }

  /** Commas make no difference to either. */
  lemma CommasAreIgnored(s: string)
    ensures PyToCents(Remove(s, ',')) == PyToCents(s) && TsToCents(Remove(s, ',')) == TsToCents(s)
  {
    RemovedIsAbsent(s, ',');
    RemoveAbsent(Remove(s, ','), ',');
  }

  lemma {:induction false} RemovedIsAbsent(s: string, c: char)
    ensures c !in Remove(s, c)
  {
    if s != "" {
      RemovedIsAbsent(s[1..], c);
    }
  }

  // ---------------------------------------------------------------- where the two parsers agree

  /** Digits, commas and points behind an optional minus sign. */
  predicate Plain(s: string) {
    forall i :: 0 <= i < |s| ==> IsDigit(s[i]) || s[i] in {',', '.'} || (i == 0 && s[i] == '-')
  }

  /** The same without commas. */
  predicate Bare(r: string) {
    forall i :: 0 <= i < |r| ==> IsDigit(r[i]) || r[i] == '.' || (i == 0 && r[i] == '-')
  }

  lemma {:induction false} RemoveKeepsPlain(s: string)
    requires Plain(s)
    ensures Bare(Remove(s, ','))
    ensures s != "" && s[0] != '-' ==> Remove(s, ',') == "" || Remove(s, ',')[0] != '-'
  {
    if s != "" {
      RemoveKeepsPlain(s[1..]);
    }
  }

  lemma PartsArePlain(r: string)
    requires Bare(r)
    ensures AllDigits(DollarsOf(r)) && AllDigits(CentsOf(r))
  {
    var before := Before(r, '.');
    assert forall i :: 0 <= i < |before| ==> before[i] == r[i];
    if SecondPart(r).Some? {
      var rest := r[|before| + 1..];
      assert forall i :: 0 <= i < |Before(rest, '.')| ==> Before(rest, '.')[i] == r[|before| + 1 + i];
    }
  }

  lemma {:induction false} RemoveKeepsCommon(s: string)
    requires Common(s)
    ensures Common(Remove(s, ','))
  {
    if s != "" {
      RemoveKeepsCommon(s[1..]);
    }
  }

  lemma PartsAreCommon(r: string)
    requires Common(r)
    ensures Common(DollarsOf(r)) && Common(CentsOf(r))
  {
    var before := Before(r, '.');
    assert forall i :: 0 <= i < |before| ==> before[i] == r[i];
    if SecondPart(r).Some? {
      var rest := r[|before| + 1..];
      assert forall i :: 0 <= i < |Before(rest, '.')| ==> Before(rest, '.')[i] == r[|before| + 1 + i];
    }
  }

  /** Both parts are read to the end, trailing space aside. */
  predicate ReadToTheEnd(r: string) {
    AllSpace(Unread(DollarsOf(r))) && AllSpace(Unread(CentsOf(r)))
  }

  /** Two integer readers, one of which refuses some of what the other one takes. */
  lemma ReadersCompare(r: string, strict: string -> Option<int>, lax: string -> Option<int>, d: bool, c: bool)
    requires strict(DollarsOf(r)) == if d then lax(DollarsOf(r)) else None
    requires strict(CentsOf(r)) == if c then lax(CentsOf(r)) else None
    ensures Read(r, strict).Some? ==> Read(r, lax) == Read(r, strict)
    ensures r != "" && r != "." ==> (Read(r, strict) != Read(r, lax) <==> Read(r, lax).Some? && !(d && c))
  {
  }

  lemma ReadersExactly(r: string)
    requires Common(r)
    ensures Read(r, PyInt).Some? ==> Read(r, JsParseInt) == Read(r, PyInt)
    ensures Read(r, PyInt) != Read(r, JsParseInt) <==> Read(r, JsParseInt).Some? && !ReadToTheEnd(r)
  {
    var d, c := AllSpace(Unread(DollarsOf(r))), AllSpace(Unread(CentsOf(r)));
    PartsAreCommon(r);
    IntReadersExactly(DollarsOf(r));
    IntReadersExactly(CentsOf(r));
    ReadersCompare(r, PyInt, JsParseInt, d, c);
    if r == "" || r == "." {
      NothingReadsToTheEnd(r);
    }
  }

  lemma NothingReadsToTheEnd(r: string)
    requires r == "" || r == "."
    ensures ReadToTheEnd(r)
  {
    assert CentsOf(r) == "00" && DollarsOf(r) == "0";
    NothingUnread("0");
    NothingUnread("00");
  }

  /** Where the two parsers agree, exactly.  On text without underscores and the control characters that only Python
      takes for space, the frontend reads whatever the backend accepts as the same number; and they differ if and only
      if the frontend accepts while something other than trailing space follows the digits of a part. */
  lemma ParsersExactly(s: string)
    requires Common(s)
    ensures PyToCents(s).Some? ==> TsToCents(s) == PyToCents(s)
    ensures PyToCents(s) != TsToCents(s) <==> TsToCents(s).Some? && !ReadToTheEnd(Trim(Remove(s, ','), JsSpace))
  {
    var r := Remove(s, ',');
    RemoveKeepsCommon(s);
    SameTrimLeft(r);
    SameTrimRight(TrimLeft(r, JsSpace));
    ReadersExactly(Trim(r, JsSpace));
  }

  /** In particular they agree, errors included, on digits, commas and points behind an optional minus sign. */
  lemma ParsersAgree(s: string)
    requires Plain(s)
    ensures PyToCents(s) == TsToCents(s)
  {
    var r := Remove(s, ',');
    RemoveKeepsPlain(s);
    NothingToTrim(r, JsSpace);
    PartsArePlain(r);
    NothingUnread(DollarsOf(r));
    NothingUnread(CentsOf(r));
    ParsersExactly(s);
  }

  /** An input on which they differ: JavaScript reads the digits in front of anything. */
  lemma ParsersDisagree()
    ensures PyToCents("5x") == None && TsToCents("5x") == Some(500)
  {
    RemoveAbsent("5x", ',');
    NothingToTrim("5x", PySpace);
    NothingToTrim("5x", JsSpace);
    WithoutPoint("5x", PyInt);
    WithoutPoint("5x", JsParseInt);
    ReadFiveX();
    ReadZeros();
  }

  lemma WithoutPoint(s: string, toInt: string -> Option<int>)
    requires s != "" && '.' !in s && s[0] != '-'
    ensures Read(s, toInt) ==
      match (toInt(s), toInt("00")) case (Some(d), Some(c)) => Some(100 * d + c) case (_, _) => None
  {
    BeforePoint(s, '.', "");
    assert SecondPart(s) == None && TwoChars("00") == "00";
    assert s != "." by {
      assert '.' in ".";
    }
  }

  lemma ReadZeros()
    ensures JsParseInt("00") == Some(0)
  {
    ParseIntOfDigits("00");
    assert "00"[..1] == "0" && "0"[..0] == "";
    assert Value("0") == 0;
  }

  lemma ReadFiveX()
    ensures PyInt("5x") == None && JsParseInt("5x") == Some(5)
  {
    NothingToTrim("5x", PySpace);
    assert "5x"[1] == 'x' && !IsDigit('x');
    assert "5x"[1..] == "x" && DigitPrefix("x") == "" && DigitPrefix("5x") == "5";
    assert "5"[..0] == "" && Value("5") == 5;
  }
}
