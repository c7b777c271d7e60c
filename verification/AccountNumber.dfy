/**
 Grouping of account numbers for display (frontend/lib/routingUtils.ts).
 */
module AccountNumber {
  import opened Numerals

  /** `raw.replace(/\D/g, '')`. */
  function StripRoutingNumber(raw: string): (r: string)
    ensures AllDigits(r)
  {
    if raw == "" then "" else (if IsDigit(raw[0]) then [raw[0]] else "") + StripRoutingNumber(raw[1..])
  }

  /** `groups.join('-')`. */
  function Join(groups: seq<string>): string {
    if groups == [] then ""
    else if |groups| == 1 then groups[0]
    else groups[0] + "-" + Join(groups[1..])
  }

  function Concat(groups: seq<string>): string {
    if groups == [] then "" else groups[0] + Concat(groups[1..])
  }

  /** One to four characters, then fours. */
  predicate InFours(groups: seq<string>) {
    && groups != [] && 1 <= |groups[0]| <= 4
    && forall i :: 1 <= i < |groups| ==> |groups[i]| == 4
  }

  /** Formatted is: short numbers as plain digits, longer ones as dashed groups of four counted from the right. */
  ghost predicate IsFormatted(raw: string, text: string) {
    var clean := StripRoutingNumber(raw);
    if |clean| <= 8 then text == clean
    else exists groups :: Grouping(clean, groups) && text == Join(groups)
  }

  ghost predicate Grouping(clean: string, groups: seq<string>) {
    InFours(groups) && Concat(groups) == clean
  }

  method FormatAccountNumber(digits: string) returns (text: string)
    ensures IsFormatted(digits, text)
  {
    var clean := StripRoutingNumber(digits);
    if |clean| <= 8 {
      return clean;
    }
    var groups: seq<string> := [];
    var remaining := clean;
    while |remaining| > 4
      invariant remaining != ""
      invariant remaining + Concat(groups) == clean
      invariant forall i :: 0 <= i < |groups| ==> |groups[i]| == 4
      decreases |remaining|
    {
      var prefix := remaining[..|remaining| - 4];
      var suffix := remaining[|remaining| - 4..];
      assert prefix + suffix == remaining;
      assert prefix + (suffix + Concat(groups)) == prefix + suffix + Concat(groups);
      assert ([suffix] + groups)[1..] == groups;
      groups := [suffix] + groups;
      remaining := prefix;
    }
    assert ([remaining] + groups)[1..] == groups;
    groups := [remaining] + groups;
    assert Grouping(clean, groups);
    return Join(groups);
  }

  // ---------------------------------------------------------------- formatting is undone by stripping

  lemma {:induction false} StripConcat(a: string, b: string)
    ensures StripRoutingNumber(a + b) == StripRoutingNumber(a) + StripRoutingNumber(b)
  {
    if a == "" {
      assert a + b == b;
    } else {
      assert (a + b)[1..] == a[1..] + b;
      StripConcat(a[1..], b);
    }
  }

  lemma {:induction false} StripOfDigits(s: string)
    requires AllDigits(s)
    ensures StripRoutingNumber(s) == s
  {
    if s != "" {
      StripOfDigits(s[1..]);
    }
  }

  lemma {:induction false} StripOfJoin(groups: seq<string>)
    ensures StripRoutingNumber(Join(groups)) == StripRoutingNumber(Concat(groups))
  {
    if |groups| == 1 {
      assert Concat(groups) == groups[0] + Concat([]);
      assert groups[0] + "" == groups[0];
    } else if groups != [] {
      StripOfJoin(groups[1..]);
      StripConcat(groups[0] + "-", Join(groups[1..]));
      StripConcat(groups[0], "-");
      StripConcat(groups[0], Concat(groups[1..]));
      assert StripRoutingNumber("-") == "";
    }
  }

  /** Stripping a formatted number gives the digits back, whatever else the input held. */
  lemma FormattingUndone(raw: string, text: string)
    requires IsFormatted(raw, text)
    ensures StripRoutingNumber(text) == StripRoutingNumber(raw)
  {
    var clean := StripRoutingNumber(raw);
    if |clean| > 8 {
      var groups :| Grouping(clean, groups) && text == Join(groups);
      StripOfJoin(groups);
    }
    StripOfDigits(clean);
  }

  // ---------------------------------------------------------------- there is only one such text

  lemma {:induction false} ConcatLength(groups: seq<string>)
    requires forall i :: 0 <= i < |groups| ==> |groups[i]| == 4
    ensures |Concat(groups)| == 4 * |groups|
  {
    if groups != [] {
      ConcatLength(groups[1..]);
    }
  }

  lemma {:induction false} FoursDetermined(g: seq<string>, h: seq<string>)
    requires forall i :: 0 <= i < |g| ==> |g[i]| == 4
    requires forall i :: 0 <= i < |h| ==> |h[i]| == 4
    requires Concat(g) == Concat(h)
    ensures g == h
  {
    ConcatLength(g);
    ConcatLength(h);
    if g != [] {
      assert g[0] == Concat(g)[..4] == Concat(h)[..4] == h[0];
      assert Concat(g[1..]) == Concat(g)[4..] == Concat(h)[4..] == Concat(h[1..]);
      FoursDetermined(g[1..], h[1..]);
      assert g == [g[0]] + g[1..] && h == [h[0]] + h[1..];
    }
  }

  /** A number has one grouping, hence one formatted text, and numbers with the same digits share it. */
  lemma FormattedDetermined(raw: string, raw': string, text: string, text': string)
    requires IsFormatted(raw, text) && IsFormatted(raw', text')
    ensures text == text' <==> StripRoutingNumber(raw) == StripRoutingNumber(raw')
  {
    var clean := StripRoutingNumber(raw);
    if clean == StripRoutingNumber(raw') {
      if |clean| > 8 {
        var g :| Grouping(clean, g) && text == Join(g);
        var h :| Grouping(clean, h) && text' == Join(h);
        GroupingDetermined(clean, g, h);
      }
    } else {
      FormattingUndone(raw, text);
      FormattingUndone(raw', text');
    }
  }

  lemma GroupingDetermined(clean: string, g: seq<string>, h: seq<string>)
    requires Grouping(clean, g) && Grouping(clean, h)
    ensures g == h
  {
    ConcatLength(g[1..]);
    ConcatLength(h[1..]);
    var a, b := |g[0]|, |h[0]|;
    assert a + 4 * |g[1..]| == b + 4 * |h[1..]|;
    assert a == b;
    assert g[0] == clean[..a] == h[0];
    assert Concat(g[1..]) == clean[a..] == Concat(h[1..]);
    FoursDetermined(g[1..], h[1..]);
    assert g == [g[0]] + g[1..] && h == [h[0]] + h[1..];
  }

  // ---------------------------------------------------------------- where the dashes stand

  lemma {:induction false} JoinedLength(groups: seq<string>)
    requires groups != [] && forall i :: 0 <= i < |groups| ==> |groups[i]| == 4
    ensures |Join(groups)| == 5 * |groups| - 1
  {
    if |groups| > 1 {
      JoinedLength(groups[1..]);
    }
  }

  /** A place counted from the right is a dash exactly if it is every fifth. */
  predicate DashAt(text: string, i: nat)
    requires i < |text|
  {
    text[i] == '-' <==> (|text| - 1 - i) % 5 == 4
  }

  lemma {:induction false} DashesInJoin(groups: seq<string>)
    requires InFours(groups) && forall i :: 0 <= i < |groups| ==> AllDigits(groups[i])
    ensures forall i :: 0 <= i < |Join(groups)| ==> DashAt(Join(groups), i)
    decreases |groups|
  {
    var text, first := Join(groups), groups[0];
    if |groups| > 1 {
      var rest := groups[1..];
      DashesInJoin(rest);
      JoinedLength(rest);
      assert text == first + "-" + Join(rest);
      forall i | 0 <= i < |text|
        ensures DashAt(text, i)
      {
        if i > |first| {
          assert text[i] == Join(rest)[i - |first| - 1] && DashAt(Join(rest), i - |first| - 1);
        } else if i == |first| {
          assert text[i] == '-' && |text| - 1 - i == 5 * |rest| - 1;
        } else {
          assert text[i] == first[i] && |text| - 1 - i == 5 * |rest| + (|first| - 1 - i);
        }
      }
    }
  }

  lemma {:induction false} GroupsOfDigits(groups: seq<string>)
    requires AllDigits(Concat(groups))
    ensures forall i :: 0 <= i < |groups| ==> AllDigits(groups[i])
  {
    if groups != [] {
      var all, first := Concat(groups), groups[0];
      assert all[..|first|] == first && all[|first|..] == Concat(groups[1..]);
      GroupsOfDigits(groups[1..]);
    }
  }

  /** More than eight digits are shown with a dash in exactly every fifth place from the right. */
  lemma DashesEveryFour(raw: string, text: string)
    requires IsFormatted(raw, text) && |StripRoutingNumber(raw)| > 8
    ensures forall i :: 0 <= i < |text| ==> DashAt(text, i)
  {
    var groups :| Grouping(StripRoutingNumber(raw), groups) && text == Join(groups);
    GroupsOfDigits(groups);
    DashesInJoin(groups);
  }
}
