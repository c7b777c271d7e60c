/** Decimal numerals as the services print and read them. */
module Numerals {
  import opened Wrappers

  predicate IsDigit(c: char) {
    '0' <= c <= '9'
  }

  predicate AllDigits(s: string) {
    forall i :: 0 <= i < |s| ==> IsDigit(s[i])
  }

  function DigitOf(c: char): nat
    requires IsDigit(c)
  {
    (c - '0') as int
  }

  function CharOf(d: nat): (c: char)
    requires d < 10
    ensures IsDigit(c) && DigitOf(c) == d
  {
    '0' + d as char
  }

  /** The decimal numeral of a number, without leading zeros. */
  function Print(n: nat): (s: string)
    ensures |s| >= 1 && AllDigits(s)
  {
    if n < 10 then [CharOf(n)] else Print(n / 10) + [CharOf(n % 10)]
  }

  /** The number a string of digits stands for; the empty string stands for 0. */
  function Value(s: string): nat
    requires AllDigits(s)
  {
    if s == "" then 0 else 10 * Value(s[..|s| - 1]) + DigitOf(s[|s| - 1])
  }

  lemma {:induction false} ValueOfPrint(n: nat)
    ensures Value(Print(n)) == n
  {
    if n < 10 {
      assert Print(n)[..0] == "";
    } else {
      ValueOfPrint(n / 10);
      assert Print(n)[..|Print(n)| - 1] == Print(n / 10);
    }
  }

  lemma {:induction false} ValueConcat(s: string, c: char)
    requires AllDigits(s) && IsDigit(c)
    ensures AllDigits(s + [c]) && Value(s + [c]) == 10 * Value(s) + DigitOf(c)
  {
    assert (s + [c])[..|s|] == s;
  }

  /** The ASCII characters that Python's `strip` and `int` drop at the ends of a string. */
  predicate PySpace(c: char) {
    c == ' ' || '\t' <= c <= '\r' || '\U{1c}' <= c <= '\U{1f}'
  }

  /** The ASCII characters that JavaScript's `trim` and `parseInt` drop. */
  predicate JsSpace(c: char) {
    c == ' ' || '\t' <= c <= '\r'
  }

  function TrimLeft(s: string, space: char -> bool): string {
    if s != "" && space(s[0]) then TrimLeft(s[1..], space) else s
  }

  function TrimRight(s: string, space: char -> bool): string {
    if s != "" && space(s[|s| - 1]) then TrimRight(s[..|s| - 1], space) else s
  }

  function Trim(s: string, space: char -> bool): string {
    TrimRight(TrimLeft(s, space), space)
  }

  /** `s.replace(c, "")`. */
  function Remove(s: string, c: char): string {
    if s == "" then "" else (if s[0] == c then "" else [s[0]]) + Remove(s[1..], c)
  }

  lemma {:induction false} RemoveConcat(a: string, b: string, c: char)
    ensures Remove(a + b, c) == Remove(a, c) + Remove(b, c)
  {
    if a == "" {
      assert a + b == b;
    } else {
      assert (a + b)[1..] == a[1..] + b;
      RemoveConcat(a[1..], b, c);
    }
  }

  lemma {:induction false} RemoveAbsent(s: string, c: char)
    requires c !in s
    ensures Remove(s, c) == s
  {
    if s != "" {
      RemoveAbsent(s[1..], c);
    }
  }

  predicate DigitsAndUnderscores(s: string) {
    forall i :: 0 <= i < |s| ==> IsDigit(s[i]) || s[i] == '_'
  }

  /** Digits with single underscores between them. */
  predicate PyDigits(s: string): (ok: bool)
    ensures ok ==> DigitsAndUnderscores(s)
  {
    s != "" && IsDigit(s[|s| - 1]) &&
    (|s| == 1 || PyDigits(s[..|s| - 1]) || (s[|s| - 2] == '_' && |s| >= 3 && PyDigits(s[..|s| - 2])))
  }

  function DropUnderscores(s: string): (r: string)
    ensures DigitsAndUnderscores(s) ==> AllDigits(r)
  {
    if s == "" then ""
    else
      var front := DropUnderscores(s[..|s| - 1]);
      if s[|s| - 1] == '_' then front else front + [s[|s| - 1]]
  }

  function AfterSign(s: string): string {
    if s != "" && (s[0] == '-' || s[0] == '+') then s[1..] else s
  }

  /** Python's `int(s)` on ASCII text: None is a ValueError. */
  function PyInt(text: string): Option<int> {
    var s := Trim(text, PySpace);
    var body := AfterSign(s);
    if !PyDigits(body) then None
    else
      var n: int := Value(DropUnderscores(body));
      Some(if s[0] == '-' then -n else n)
  }

  lemma {:induction false} PlainDigits(s: string)
    requires AllDigits(s)
    ensures DropUnderscores(s) == s && (s != "" ==> PyDigits(s))
  {
    if s != "" {
      PlainDigits(s[..|s| - 1]);
    }
  }

  lemma NothingToTrim(s: string, space: char -> bool)
    requires s != "" ==> !space(s[0]) && !space(s[|s| - 1])
    ensures Trim(s, space) == s
  {
  }

  /** `int` in terms of the trimmed text and what follows its sign. */
  lemma PyIntOfBody(text: string, z: string, body: string)
    requires z == Trim(text, PySpace) && body == AfterSign(z)
    ensures PyInt(text) ==
      if !PyDigits(body) then None
      else Some(if z[0] == '-' then -(Value(DropUnderscores(body)) as int) else Value(DropUnderscores(body)) as int)
  {
  }

  lemma PyIntOfDigits(s: string)
    requires AllDigits(s)
    ensures PyInt(s) == if s == "" then None else Some(Value(s))
  {
    assert s != "" ==> IsDigit(s[0]) && IsDigit(s[|s| - 1]);
    NothingToTrim(s, PySpace);
    PyIntOfBody(s, s, s);
    PlainDigits(s);
    assert s == "" ==> !PyDigits(s);
  }

  function DigitPrefix(s: string): (r: string)
    ensures AllDigits(r) && |r| <= |s| && s[..|r|] == r
  {
    if s != "" && IsDigit(s[0]) then [s[0]] + DigitPrefix(s[1..]) else ""
  }

  /** JavaScript's `parseInt(s, 10)` on ASCII text: the longest numeral at the front; None is NaN. */
  function JsParseInt(text: string): Option<int> {
    var s := TrimLeft(text, JsSpace);
    var digits := DigitPrefix(AfterSign(s));
    if digits == "" then None
    else
      var n: int := Value(digits);
      Some(if s[0] == '-' then -n else n)
  }

  lemma {:induction false} PrefixOfDigits(s: string)
    requires AllDigits(s)
    ensures DigitPrefix(s) == s
  {
    if s != "" {
      PrefixOfDigits(s[1..]);
    }
  }

  lemma ParseIntOfDigits(s: string)
    requires AllDigits(s)
    ensures JsParseInt(s) == if s == "" then None else Some(Value(s))
  {
    PrefixOfDigits(s);
  }

  // ---------------------------------------------------------------- where the two integer readers agree

  /** What `parseInt` leaves unread. */
  function Unread(text: string): string {
    var body := AfterSign(TrimLeft(text, JsSpace));
    body[|DigitPrefix(body)|..]
  }

  predicate AllSpace(s: string) {
    forall i :: 0 <= i < |s| ==> JsSpace(s[i])
  }

  /** No underscore, and none of the four control characters that only Python takes for space. */
  predicate CommonChar(c: char) {
    c != '_' && !('\U{1c}' <= c <= '\U{1f}')
  }

  predicate Common(s: string) {
    forall i :: 0 <= i < |s| ==> CommonChar(s[i])
  }

  lemma {:induction false} SameTrimLeft(s: string)
    requires Common(s)
    ensures TrimLeft(s, PySpace) == TrimLeft(s, JsSpace) && Common(TrimLeft(s, JsSpace))
  {
    if s != "" {
      assert CommonChar(s[0]);
      SameTrimLeft(s[1..]);
    }
  }

  lemma {:induction false} SameTrimRight(s: string)
    requires Common(s)
    ensures TrimRight(s, PySpace) == TrimRight(s, JsSpace) && Common(TrimRight(s, JsSpace))
  {
    if s != "" {
      assert CommonChar(s[|s| - 1]);
      SameTrimRight(s[..|s| - 1]);
    }
  }

  /** Trimming at the right takes off space and nothing else. */
  lemma {:induction false} TrimRightSplits(s: string)
    ensures var r := TrimRight(s, JsSpace);
      && |r| <= |s| && s[..|r|] == r && AllSpace(s[|r|..]) && (r != "" ==> !JsSpace(r[|r| - 1]))
  {
    if s != "" && JsSpace(s[|s| - 1]) {
      var front := s[..|s| - 1];
      TrimRightSplits(front);
      var r := TrimRight(front, JsSpace);
      assert s[|r|..] == front[|r|..] + [s[|s| - 1]];
    }
  }

  lemma {:induction false} TrimRightOf(s: string, spaces: string)
    requires AllSpace(spaces) && s != "" && !JsSpace(s[|s| - 1])
    ensures TrimRight(s + spaces, JsSpace) == s
    decreases |spaces|
  {
    if spaces == "" {
      assert s + spaces == s;
    } else {
      var n := |spaces| - 1;
      assert (s + spaces)[..|s + spaces| - 1] == s + spaces[..n];
      assert JsSpace(spaces[n]);
      TrimRightOf(s, spaces[..n]);
    }
  }

  lemma {:induction false} PrefixStops(digits: string, rest: string)
    requires AllDigits(digits) && (rest != "" ==> !IsDigit(rest[0]))
    ensures DigitPrefix(digits + rest) == digits
  {
    if digits == "" {
      assert digits + rest == rest;
    } else {
      assert (digits + rest)[1..] == digits[1..] + rest;
      PrefixStops(digits[1..], rest);
    }
  }

  lemma {:induction false} DigitsWithoutUnderscores(s: string)
    requires Common(s)
    ensures PyDigits(s) <==> s != "" && AllDigits(s)
  {
    if |s| > 1 {
      assert CommonChar(s[|s| - 2]);
      DigitsWithoutUnderscores(s[..|s| - 1]);
      assert s == s[..|s| - 1] + [s[|s| - 1]];
    }
  }

  lemma AfterSignOf(z: string, rest: string)
    requires z != ""
    ensures AfterSign(z + rest) == AfterSign(z) + rest && (z + rest)[0] == z[0]
  {
  }

  /** Where a trimmed text is all digits behind its sign, the whole is those digits and then nothing but space. */
  lemma TrimmedDigitsAreThePrefix(y: string)
    requires var body := AfterSign(TrimRight(y, JsSpace)); body != "" && AllDigits(body)
    ensures var body := AfterSign(TrimRight(y, JsSpace));
      && DigitPrefix(AfterSign(y)) == body && AllSpace(AfterSign(y)[|body|..])
      && y != "" && y[0] == TrimRight(y, JsSpace)[0]
  {
    var z := TrimRight(y, JsSpace);
    var body := AfterSign(z);
    TrimRightSplits(y);
    var spaces := y[|z|..];
    assert y == z + spaces;
    AfterSignOf(z, spaces);
    DigitsThenSpaces(body, spaces);
  }

  lemma DigitsThenSpaces(body: string, spaces: string)
    requires AllDigits(body) && AllSpace(spaces)
    ensures DigitPrefix(body + spaces) == body && AllSpace((body + spaces)[|body|..])
  {
    assert spaces != "" ==> JsSpace(spaces[0]);
    PrefixStops(body, spaces);
    assert (body + spaces)[|body|..] == spaces;
  }

  /** And the other way round. */
  lemma PrefixIsTrimmed(y: string)
    requires var digits := DigitPrefix(AfterSign(y)); digits != "" && AllSpace(AfterSign(y)[|digits|..])
    ensures AfterSign(TrimRight(y, JsSpace)) == DigitPrefix(AfterSign(y))
  {
    var digits := DigitPrefix(AfterSign(y));
    var rest := AfterSign(y)[|digits|..];
    var head := y[..|y| - |rest|];
    assert head + rest == y && digits == AfterSign(head);
    assert head[|head| - 1] == digits[|digits| - 1];
    TrimRightOf(head, rest);
  }

  function Signed(s: string, digits: string): int
    requires s != "" && AllDigits(digits)
  {
    var n: int := Value(digits);
    if s[0] == '-' then -n else n
  }

  lemma PyIntOfTrimmed(text: string, z: string, body: string)
    requires z == Trim(text, PySpace) && body == AfterSign(z) && Common(body)
    ensures PyInt(text) == if body != "" && AllDigits(body) then Some(Signed(z, body)) else None
  {
    DigitsWithoutUnderscores(body);
    if body != "" && AllDigits(body) {
      PlainDigits(body);
    }
  }

  lemma {:induction false} TrimLeftKeepsCommon(s: string)
    requires Common(s)
    ensures Common(TrimLeft(s, JsSpace))
  {
    if s != "" {
      TrimLeftKeepsCommon(s[1..]);
    }
  }

  lemma {:induction false} TrimRightKeepsCommon(s: string)
    requires Common(s)
    ensures Common(TrimRight(s, JsSpace)) && Common(AfterSign(TrimRight(s, JsSpace)))
  {
    if s != "" {
      TrimRightKeepsCommon(s[..|s| - 1]);
    }
  }

  /** `int` on common text, with JavaScript's idea of space. */
  lemma PyIntOfCommon(text: string)
    requires Common(text)
    ensures var z := TrimRight(TrimLeft(text, JsSpace), JsSpace);
      var body := AfterSign(z);
      PyInt(text) == if body != "" && AllDigits(body) then Some(Signed(z, body)) else None
  {
    SameTrimLeft(text);
    var y := TrimLeft(text, JsSpace);
    TrimLeftKeepsCommon(text);
    SameTrimRight(y);
    TrimRightKeepsCommon(y);
    PyIntOfTrimmed(text, TrimRight(y, JsSpace), AfterSign(TrimRight(y, JsSpace)));
  }

  /** On common text Python accepts exactly what `parseInt` accepts and reads to the end, trailing space aside, and then
      both give the same number. */
  lemma IntReadersExactly(text: string)
    requires Common(text)
    ensures PyInt(text) == if AllSpace(Unread(text)) then JsParseInt(text) else None
  {
    PyIntOfCommon(text);
    var y := TrimLeft(text, JsSpace);
    var body := AfterSign(TrimRight(y, JsSpace));
    if body != "" && AllDigits(body) {
      TrimmedDigitsAreThePrefix(y);
    } else if DigitPrefix(AfterSign(y)) != "" && AllSpace(Unread(text)) {
      PrefixIsTrimmed(y);
    }
  }

  lemma NothingUnread(s: string)
    requires AllDigits(s)
    ensures Unread(s) == ""
  {
    PrefixOfDigits(s);
  }
}
