/** Money as text: packages/shared/src/format.ts. */
module Money {
  import opened Prelude
  import B = BusinessNumbers
  import Decimal

  /** `replace(/[^0-9]/g, '')`. */
  function OnlyDigits(s: string): (d: string)
    ensures B.AllDigits(d)
  {
    if s == [] then [] else (if B.IsDigit(s[0]) then [s[0]] else []) + OnlyDigits(s[1..])
  }

  // ----- Indian grouping -----

  /** Groups of two from the right; only the first may be shorter. */
  function Pairs(rest: string): seq<string> {
    if |rest| == 0 then []
    else if |rest| <= 2 then [rest]
    else Pairs(rest[..|rest| - 2]) + [rest[|rest| - 2..]]
  }

  function Commas(groups: seq<string>): string {
    if groups == [] then []
    else if |groups| == 1 then groups[0]
    else groups[0] + "," + Commas(groups[1..])
  }

  function Grouped(digits: string): string {
    if |digits| <= 3 then digits
    else Commas(Pairs(digits[..|digits| - 3]) + [digits[|digits| - 3..]])
  }

  /** groupEnIN, with the source's loop from the right. */
  method GroupEnIN(text: string) returns (out: string)
    ensures out == Grouped(OnlyDigits(text))
  {
    var d := OnlyDigits(text);
    if d == "" {
      return "";
    }
    if |d| <= 3 {
      return d;
    }
    var last3, rest := d[|d| - 3..], d[..|d| - 3];
    var groups: seq<string> := [];
    var i: int := |rest|;
    assert rest[..i] == rest && Pairs(rest) + groups == Pairs(rest);
    while i > 0
      invariant i <= |rest|
      invariant if i > 0 then Pairs(rest) == Pairs(rest[..i]) + groups else Pairs(rest) == groups
      decreases i
    {
      var from := if i - 2 > 0 then i - 2 else 0;
      PairsStep(rest, i, from);
      assert Pairs(rest[..i]) + groups == Pairs(rest[..from]) + ([rest[from..i]] + groups);
      groups := [rest[from..i]] + groups;
      i := i - 2;
      assert i <= 0 ==> Pairs(rest[..from]) == [] && [] + groups == groups;
    }
    return Commas(groups + [last3]);
  }

  lemma PairsStep(rest: string, i: nat, from: nat)
    requires 0 < i <= |rest| && from == if i - 2 > 0 then i - 2 else 0
    ensures Pairs(rest[..i]) == Pairs(rest[..from]) + [rest[from..i]]
  {
    var front := rest[..i];
    if |front| > 2 {
      assert front[..|front| - 2] == rest[..from] && front[|front| - 2..] == rest[from..i];
    } else {
      assert rest[..from] == [] && rest[from..i] == front;
    }
  }

  /** `split(',').join('')`. */
  function WithoutCommas(s: string): string {
    if s == [] then [] else (if s[0] == ',' then [] else [s[0]]) + WithoutCommas(s[1..])
  }

  function Concat(groups: seq<string>): string {
    if groups == [] then [] else groups[0] + Concat(groups[1..])
  }

  lemma {:induction false} WithoutCommasConcat(a: string, b: string)
    ensures WithoutCommas(a + b) == WithoutCommas(a) + WithoutCommas(b)
  {
    if a == [] {
      assert a + b == b;
    } else {
      assert (a + b)[1..] == a[1..] + b;
      WithoutCommasConcat(a[1..], b);
    }
  }

  lemma {:induction false} DigitsHaveNoCommas(s: string)
    requires B.AllDigits(s)
    ensures WithoutCommas(s) == s
  {
    if s == [] {
    } else {
      DigitsHaveNoCommas(s[1..]);
    }
  }

  lemma {:induction false} CommasDelete(groups: seq<string>)
    requires forall g :: g in groups ==> B.AllDigits(g)
    ensures WithoutCommas(Commas(groups)) == Concat(groups)
  {
    if |groups| == 1 {
      DigitsHaveNoCommas(groups[0]);
      assert Concat(groups[1..]) == [] && groups[0] + [] == groups[0];
    } else if |groups| > 1 {
      DigitsHaveNoCommas(groups[0]);
      CommasDelete(groups[1..]);
      WithoutCommasConcat(groups[0], "," + Commas(groups[1..]));
      WithoutCommasConcat(",", Commas(groups[1..]));
      assert WithoutCommas(",") == [] by { assert ","[1..] == []; }
      assert groups[0] + "," + Commas(groups[1..]) == groups[0] + ("," + Commas(groups[1..]));
    }
  }

  lemma {:induction false} ConcatAppend(groups: seq<string>, g: string)
    ensures Concat(groups + [g]) == Concat(groups) + g
  {
    if groups == [] {
      assert [] + [g] == [g] && [g][1..] == [];
      assert g + [] == g;
    } else {
      assert (groups + [g])[1..] == groups[1..] + [g];
      ConcatAppend(groups[1..], g);
    }
  }

  /** The pairs are the digits again, two by two, the first perhaps alone. */
  lemma {:induction false} PairsShape(rest: string)
    requires B.AllDigits(rest)
    ensures Concat(Pairs(rest)) == rest
    ensures forall g :: g in Pairs(rest) ==> B.AllDigits(g)
    ensures forall i :: 0 < i < |Pairs(rest)| ==> |Pairs(rest)[i]| == 2
    ensures Pairs(rest) != [] ==> 1 <= |Pairs(rest)[0]| <= 2
  {
    if 0 < |rest| <= 2 {
      assert Concat([rest]) == rest by { assert [rest][1..] == []; assert rest + [] == rest; }
    } else if |rest| > 2 {
      PairsShape(rest[..|rest| - 2]);
      ConcatAppend(Pairs(rest[..|rest| - 2]), rest[|rest| - 2..]);
      assert rest[..|rest| - 2] + rest[|rest| - 2..] == rest;
    }
  }

  /** Deleting the commas of a grouped amount returns its digits, so nothing is lost. */
  lemma CommasLoseNothing(digits: string)
    requires B.AllDigits(digits)
    ensures WithoutCommas(Grouped(digits)) == digits
  {
    if |digits| <= 3 {
      DigitsHaveNoCommas(digits);
    } else {
      var rest, last3 := digits[..|digits| - 3], digits[|digits| - 3..];
      PairsShape(rest);
      CommasDelete(Pairs(rest) + [last3]);
      ConcatAppend(Pairs(rest), last3);
      assert rest + last3 == digits;
    }
  }

  // ----- amounts -----

  /** `replace(/[^0-9.]/g, '')`. */
  function Cleaned(s: string): string {
    if s == [] then [] else (if B.IsDigit(s[0]) || s[0] == '.' then [s[0]] else []) + Cleaned(s[1..])
  }

  /** The text before the first dot. */
  function BeforeDot(s: string): (r: string)
    ensures |r| <= |s| && (|r| < |s| ==> s[|r|] == '.')
  {
    if s == [] || s[0] == '.' then [] else [s[0]] + BeforeDot(s[1..])
  }

  /** `split('.')` as the source takes it apart: the first two pieces. */
  function WholePart(s: string): string { BeforeDot(s) }

  function FractionPart(s: string): string {
    if |BeforeDot(s)| < |s| then BeforeDot(s[|BeforeDot(s)| + 1..]) else ""
  }

  /** `(decRaw + '0').slice(0, 2)`. */
  function PaiseText(fraction: string): string {
    if |fraction| == 0 then "0" else if |fraction| == 1 then fraction + "0" else fraction[..2]
  }

  /** formatMoneyEnIN. */
  function FormatMoney(raw: string): string {
    var cleaned := Cleaned(raw);
    var whole := if WholePart(cleaned) == "" then "0" else WholePart(cleaned);
    var paise := PaiseText(FractionPart(cleaned));
    Shown(OnlyDigits(whole), paise)
  }

  /** Paise are shown only when there are any. */
  function Shown(digits: string, paise: string): string {
    if exists i :: 0 <= i < |paise| && paise[i] != '0' then Grouped(digits) + "." + paise else Grouped(digits)
  }

  /** The typing transform: digits and the first dot. */
  function Stripped(raw: string, seenDot: bool): string {
    if raw == [] then []
    else if B.IsDigit(raw[0]) then [raw[0]] + Stripped(raw[1..], seenDot)
    else if raw[0] == '.' && !seenDot then ['.'] + Stripped(raw[1..], true)
    else Stripped(raw[1..], seenDot)
  }

  method StripToNumeric(raw: string) returns (out: string)
    ensures out == Stripped(raw, false)
  {
    out := "";
    var seenDot := false;
    var i := 0;
    while i < |raw|
      invariant 0 <= i <= |raw|
      invariant out + Stripped(raw[i..], seenDot) == Stripped(raw, false)
    {
      var ch := raw[i];
      assert raw[i..][1..] == raw[i + 1..];
      if B.IsDigit(ch) {
        assert out + ([ch] + Stripped(raw[i + 1..], seenDot)) == (out + [ch]) + Stripped(raw[i + 1..], seenDot);
        out := out + [ch];
      } else if ch == '.' && !seenDot {
        assert out + ([ch] + Stripped(raw[i + 1..], true)) == (out + [ch]) + Stripped(raw[i + 1..], true);
        out := out + [ch];
        seenDot := true;
      }
      i := i + 1;
    }
    assert raw[i..] == [];
  }

  /** Typing is stable: stripping what was stripped changes nothing. */
  lemma {:induction false} StrippingTwiceIsOnce(raw: string, seenDot: bool)
    ensures Stripped(Stripped(raw, seenDot), seenDot) == Stripped(raw, seenDot)
  {
    if raw == [] {
    } else {
      var rest := Stripped(raw[1..], seenDot || raw[0] == '.');
      if B.IsDigit(raw[0]) {
        StrippingTwiceIsOnce(raw[1..], seenDot);
        assert ([raw[0]] + Stripped(raw[1..], seenDot))[1..] == Stripped(raw[1..], seenDot);
      } else if raw[0] == '.' && !seenDot {
        StrippingTwiceIsOnce(raw[1..], true);
        assert (['.'] + Stripped(raw[1..], true))[1..] == Stripped(raw[1..], true);
      } else {
        StrippingTwiceIsOnce(raw[1..], seenDot);
      }
    }
  }

  /** The amount a text stands for, in paise; digits beyond the second are cut. */
  function Paise(raw: string): nat {
    PaiseOf(WholePart(Cleaned(raw)), FractionPart(Cleaned(raw)))
  }

  function PaiseOf(whole: string, fraction: string): nat {
    100 * B.ParseInt(OnlyDigits(whole)) + B.ParseInt(OnlyDigits(PaiseText(fraction)))
  }

  // ----- the shown amount is the entered one -----

  lemma {:induction false} CleanedConcat(a: string, b: string)
    ensures Cleaned(a + b) == Cleaned(a) + Cleaned(b)
  {
    if a == [] {
      assert a + b == b;
    } else {
      assert (a + b)[1..] == a[1..] + b;
      CleanedConcat(a[1..], b);
      Regroup(if B.IsDigit(a[0]) || a[0] == '.' then [a[0]] else [], Cleaned(a[1..]), Cleaned(b));
    }
  }

  lemma {:induction false} DigitsStay(s: string)
    requires B.AllDigits(s)
    ensures Cleaned(s) == s && OnlyDigits(s) == s && BeforeDot(s) == s
  {
    if s == [] {
    } else {
      DigitsStay(s[1..]);
    }
  }

  lemma {:induction false} CommasClean(groups: seq<string>)
    requires forall g :: g in groups ==> B.AllDigits(g)
    ensures Cleaned(Commas(groups)) == Concat(groups)
  {
    if |groups| == 1 {
      DigitsStay(groups[0]);
      assert Concat(groups[1..]) == [] && groups[0] + [] == groups[0];
    } else if |groups| > 1 {
      DigitsStay(groups[0]);
      CommasClean(groups[1..]);
      CleanedConcat(groups[0], "," + Commas(groups[1..]));
      CleanedConcat(",", Commas(groups[1..]));
      assert Cleaned(",") == [] by { assert ","[1..] == []; }
      assert groups[0] + "," + Commas(groups[1..]) == groups[0] + ("," + Commas(groups[1..]));
    }
  }

  lemma GroupedCleans(digits: string)
    requires B.AllDigits(digits)
    ensures Cleaned(Grouped(digits)) == digits
  {
    if |digits| <= 3 {
      DigitsStay(digits);
    } else {
      var rest, last3 := digits[..|digits| - 3], digits[|digits| - 3..];
      PairsShape(rest);
      CommasClean(Pairs(rest) + [last3]);
      ConcatAppend(Pairs(rest), last3);
      assert rest + last3 == digits;
    }
  }

  predicate DigitsAndDots(s: string) {
    forall i :: 0 <= i < |s| ==> B.IsDigit(s[i]) || s[i] == '.'
  }

  lemma {:induction false} CleanedIsClean(s: string)
    ensures DigitsAndDots(Cleaned(s))
  {
    if s == [] {
    } else {
      CleanedIsClean(s[1..]);
    }
  }

  lemma {:induction false} BeforeDotIsDigits(s: string)
    requires DigitsAndDots(s)
    ensures B.AllDigits(BeforeDot(s))
  {
    if s != [] && s[0] != '.' {
      BeforeDotIsDigits(s[1..]);
    }
  }

  lemma PartsAreDigits(raw: string)
    ensures B.AllDigits(WholePart(Cleaned(raw))) && B.AllDigits(FractionPart(Cleaned(raw)))
  {
    var c := Cleaned(raw);
    CleanedIsClean(raw);
    BeforeDotIsDigits(c);
    if |BeforeDot(c)| < |c| {
      BeforeDotIsDigits(c[|BeforeDot(c)| + 1..]);
    }
  }

  lemma {:induction false} DotSplits(d: string, p: string)
    requires B.AllDigits(d)
    ensures BeforeDot(d + "." + p) == d
  {
    if d == [] {
      assert d + "." + p == "." + p;
    } else {
      assert (d + "." + p)[1..] == d[1..] + "." + p;
      DotSplits(d[1..], p);
    }
  }

  /** The two pieces of a grouped amount with paise. */
  lemma ShownParts(d: string, p: string)
    requires B.AllDigits(d) && B.AllDigits(p)
    ensures WholePart(Cleaned(Grouped(d))) == d && FractionPart(Cleaned(Grouped(d))) == ""
    ensures WholePart(Cleaned(Grouped(d) + "." + p)) == d && FractionPart(Cleaned(Grouped(d) + "." + p)) == p
  {
    GroupedCleans(d);
    DigitsStay(d);
    DigitsStay(p);
    CleanedConcat(Grouped(d) + ".", p);
    CleanedConcat(Grouped(d), ".");
    assert Cleaned(".") == "." by { assert "."[1..] == []; }
    DotSplits(d, p);
    assert (d + "." + p)[|d| + 1..] == p;
  }

  lemma ZerosAreNothing(p: string)
    requires B.AllDigits(p) && forall i :: 0 <= i < |p| ==> p[i] == '0'
    ensures B.ParseInt(p) == 0
  {
    assert B.Read(p) == Decimal.Zeros(|p|) + [];
    Decimal.ValueIgnoresZeros(|p|, []);
  }

  lemma ZeroWhole(whole: string, fraction: string)
    ensures PaiseOf("0", fraction) == PaiseOf("", fraction)
    ensures whole != "" ==> PaiseOf(if whole == "" then "0" else whole, fraction) == PaiseOf(whole, fraction)
  {
    DigitsStay("0");
    ZerosAreNothing("0");
    ZerosAreNothing("");
  }

  /** Zero paise may be left out, and two digits of paise stay themselves. */
  lemma PaiseTextIsEnough(whole: string, fraction: string)
    requires B.AllDigits(fraction)
    ensures B.AllDigits(PaiseText(fraction))
    ensures var p := PaiseText(fraction);
            PaiseOf(whole, fraction) ==
            if forall i :: 0 <= i < |p| ==> p[i] == '0' then PaiseOf(whole, "") else PaiseOf(whole, p)
  {
    var p := PaiseText(fraction);
    DigitsStay(p);
    DigitsStay("0");
    ZerosAreNothing("0");
    if forall i :: 0 <= i < |p| ==> p[i] == '0' {
      ZerosAreNothing(p);
    } else {
      assert |p| == 2 && PaiseText(p) == p;
    }
  }

  lemma ShownPaise(digits: string, paise: string)
    requires B.AllDigits(digits) && B.AllDigits(paise)
    ensures Paise(Shown(digits, paise)) ==
            if forall i :: 0 <= i < |paise| ==> paise[i] == '0' then PaiseOf(digits, "") else PaiseOf(digits, paise)
  {
    ShownParts(digits, paise);
  }

  /** The formatted text has the paise of the entered one: grouping, the dropped zero paise
      and the added zeros change nothing, and digits beyond the second are cut. */
  lemma FormattingKeepsThePaise(raw: string)
    ensures Paise(FormatMoney(raw)) == Paise(raw)
  {
    PartsAreDigits(raw);
    var whole, fraction := WholePart(Cleaned(raw)), FractionPart(Cleaned(raw));
    var d := if whole == "" then "0" else whole;
    DigitsStay(d);
    PaiseTextIsEnough(d, fraction);
    ShownPaise(d, PaiseText(fraction));
    ZeroWhole(whole, fraction);
  }

  // ----- the sign -----

  /** A minus sign stands before the number. */
  predicate MinusFirst(raw: string) {
    raw != "" && (raw[0] == '-' || (!B.IsDigit(raw[0]) && raw[0] != '.' && MinusFirst(raw[1..])))
  }

  lemma {:induction false} MinusIsFirstExactly(raw: string)
    ensures MinusFirst(raw) <==>
              exists i :: 0 <= i < |raw| && raw[i] == '-'
                && forall j :: 0 <= j < i ==> !('0' <= raw[j] <= '9') && raw[j] != '.'
  {
    if raw != "" && raw[0] != '-' {
      var rest := raw[1..];
      MinusIsFirstExactly(rest);
      if i :| 0 <= i < |raw| && raw[i] == '-' && forall j :: 0 <= j < i ==> !('0' <= raw[j] <= '9') && raw[j] != '.' {
        assert rest[i - 1] == '-' && forall j :: 0 <= j < i - 1 ==> rest[j] == raw[j + 1];
      }
      if MinusFirst(raw) {
        var i :| 0 <= i < |rest| && rest[i] == '-'
                 && forall j :: 0 <= j < i ==> !('0' <= rest[j] <= '9') && rest[j] != '.';
        assert raw[i + 1] == '-' && forall j :: 0 < j < i + 1 ==> raw[j] == rest[j - 1];
      }
    }
  }

  /** The amount a reader sees in a text. */
  function Amount(raw: string): int {
    if MinusFirst(raw) then 0 - Paise(raw) else Paise(raw)
  }

  lemma GroupedStartsWithADigit(digits: string)
    requires B.AllDigits(digits) && digits != ""
    ensures Grouped(digits) != "" && B.IsDigit(Grouped(digits)[0])
  {
    if |digits| > 3 {
      var rest, last3 := digits[..|digits| - 3], digits[|digits| - 3..];
      PairsShape(rest);
      assert Pairs(rest) != [] && Pairs(rest)[0] in Pairs(rest);
      assert (Pairs(rest) + [last3])[0] == Pairs(rest)[0];
    }
  }

  lemma FormattedHasNoMinus(raw: string)
    ensures !MinusFirst(FormatMoney(raw))
  {
    PartsAreDigits(raw);
    var whole := WholePart(Cleaned(raw));
    var d := if whole == "" then "0" else whole;
    DigitsStay(d);
    GroupedStartsWithADigit(d);
    assert FormatMoney(raw)[0] == Grouped(d)[0];
  }

  /** The formatted text stands for the entered amount, cut to whole paise, exactly when
      that amount is zero or bears no minus sign; the sign is dropped with everything else
      that is neither digit nor dot. */
  lemma FormattingKeepsTheAmount(raw: string)
    ensures Amount(FormatMoney(raw)) == Amount(raw) <==> !MinusFirst(raw) || Paise(raw) == 0
  {
    FormattingKeepsThePaise(raw);
    FormattedHasNoMinus(raw);
  }

  lemma FiveIsFive()
    ensures B.Read("5") == [5] && B.Read("0") == [0] && Decimal.Value([5]) == 5 && Decimal.Value([0]) == 0
  {
    assert [5][..0] == [] && [0][..0] == [];
    assert Decimal.Value([]) == 0;
  }

  lemma PaiseOfFive()
    ensures Cleaned("5") == "5" && Cleaned("-5") == "5" && Paise("5") == 500 && Paise("-5") == 500
  {
    assert "-5"[1..] == "5" && "5"[1..] == "" && "0"[1..] == "";
    assert Cleaned("5") == "5" && Cleaned("-5") == "5";
    assert BeforeDot("5") == "5" && OnlyDigits("5") == "5" && OnlyDigits("0") == "0";
    FiveIsFive();
  }

  /** A debt of five rupees is shown as five rupees. */
  lemma MinusIsDropped()
    ensures FormatMoney("-5") == FormatMoney("5") && Amount("-5") == -500 && Amount("5") == 500
  {
    PaiseOfFive();
    assert MinusFirst("-5") && !MinusFirst("5");
  }

  // ----- the texts, character by character -----

  /** Grouping keeps the digits and nothing else of its input, in order. */
  lemma {:induction false} OnlyDigitsConcat(a: string, c: char, b: string)
    ensures OnlyDigits([]) == []
    ensures OnlyDigits(a + [c] + b) == OnlyDigits(a) + (if '0' <= c <= '9' then [c] else []) + OnlyDigits(b)
  {
    if a == [] {
      assert (a + [c] + b)[1..] == b;
    } else {
      assert (a + [c] + b)[1..] == a[1..] + [c] + b;
      OnlyDigitsConcat(a[1..], c, b);
      var head := if B.IsDigit(a[0]) then [a[0]] else [];
      var middle := if '0' <= c <= '9' then [c] else [];
      Regroup(head, OnlyDigits(a[1..]) + middle, OnlyDigits(b));
      Regroup(head, OnlyDigits(a[1..]), middle);
    }
  }

  /** Formatting ignores every character that is neither a digit nor a dot, so a grouped
      amount can be formatted again. */
  lemma NoiseIsIgnored(a: string, c: char, b: string)
    requires !('0' <= c <= '9') && c != '.'
    ensures FormatMoney(a + [c] + b) == FormatMoney(a + b)
  {
    CleanedConcat(a + [c], b);
    CleanedConcat(a, [c]);
    CleanedConcat(a, b);
    assert [c][1..] == [];
    assert Cleaned([c]) == [] && Cleaned(a) + [] == Cleaned(a);
  }

  /** `c` stands `k` places from the right end. */
  predicate FromRight(s: string, k: nat, c: char) {
    k < |s| && s[|s| - 1 - k] == c
  }

  lemma {:induction false} CommasAppend(groups: seq<string>, g: string)
    requires groups != []
    ensures Commas(groups + [g]) == Commas(groups) + "," + g
  {
    if |groups| == 1 {
      assert (groups + [g])[1..] == [g];
    } else {
      assert (groups + [g])[1..] == groups[1..] + [g];
      CommasAppend(groups[1..], g);
      var rest := Commas(groups[1..]);
      Regroup(groups[0] + ",", rest + ",", g);
      Regroup(groups[0] + ",", rest, ",");
    }
  }

  /** A last group moves the commas before it by its length and one. */
  lemma GroupAppended(front: string, last: string, k: nat)
    requires B.AllDigits(last) && front != ""
    ensures var s := front + "," + last;
            && s[0] == front[0]
            && (FromRight(s, k, ',') <==> k == |last| || (k > |last| && FromRight(front, k - |last| - 1, ',')))
  {
    var s := front + "," + last;
    assert s[|front|] == ',';
    if k < |last| {
      assert s[|s| - 1 - k] == last[|last| - 1 - k];
    } else if |last| < k < |s| {
      assert s[|s| - 1 - k] == front[|s| - 1 - k];
    }
  }

  /** The commas stand two places from the right end, and at every third place from there. */
  ghost predicate CommasAtThirds(s: string) {
    s != "" && B.IsDigit(s[0]) && forall k: nat :: FromRight(s, k, ',') <==> k < |s| && k % 3 == 2
  }

  lemma PairAppended(front: string, last: string)
    requires CommasAtThirds(front) && B.AllDigits(last) && |last| == 2
    ensures CommasAtThirds(front + "," + last)
  {
    var s := front + "," + last;
    forall k: nat
      ensures FromRight(s, k, ',') <==> k < |s| && k % 3 == 2
    {
      GroupAppended(front, last, k);
      if k >= 3 {
        assert FromRight(front, k - 3, ',') <==> k - 3 < |front| && (k - 3) % 3 == 2;
      }
    }
  }

  /** In front of the last group. */
  lemma {:induction false} PairsCommas(rest: string)
    requires B.AllDigits(rest) && rest != ""
    ensures CommasAtThirds(Commas(Pairs(rest)))
    decreases |rest|
  {
    if |rest| <= 2 {
      assert Commas([rest]) == rest;
    } else {
      var front, last := rest[..|rest| - 2], rest[|rest| - 2..];
      PairsShape(front);
      CommasAppend(Pairs(front), last);
      PairsCommas(front);
      PairAppended(Commas(Pairs(front)), last);
    }
  }

  lemma LastThreeAppended(front: string, last: string, k: nat)
    requires CommasAtThirds(front) && B.AllDigits(last) && |last| == 3 && k < |front| + 4
    ensures FromRight(front + "," + last, k, ',') <==> k % 3 == 0 && k > 0
    ensures (front + "," + last)[0] == front[0]
  {
    GroupAppended(front, last, k);
    if k >= 4 {
      assert FromRight(front, k - 4, ',') <==> k - 4 < |front| && (k - 4) % 3 == 2;
    }
  }

  /** A grouped amount has a comma exactly where the number of places to its right is a
      multiple of three, not at the right end and never at the left: 1,00,000 and
      1,00,00,000. */
  lemma GroupedIsDecided(digits: string, k: nat)
    requires B.AllDigits(digits) && k < |Grouped(digits)|
    ensures FromRight(Grouped(digits), k, ',') <==> k % 3 == 0 && k > 0
    ensures B.IsDigit(Grouped(digits)[0])
  {
    if |digits| > 3 {
      var rest, last3 := digits[..|digits| - 3], digits[|digits| - 3..];
      PairsShape(rest);
      CommasAppend(Pairs(rest), last3);
      PairsCommas(rest);
      LastThreeAppended(Commas(Pairs(rest)), last3, k);
    }
  }

  lemma DottedParts(whole: string, fraction: string, rest: string)
    requires B.AllDigits(whole) && B.AllDigits(fraction) && DigitsAndDots(rest)
    requires rest != "" ==> rest[0] == '.'
    ensures Cleaned(whole) == whole && WholePart(whole) == whole && FractionPart(whole) == ""
    ensures var s := whole + "." + (fraction + rest);
            Cleaned(s) == s && WholePart(s) == whole && FractionPart(s) == fraction
  {
    var s := whole + "." + (fraction + rest);
    DigitsStay(whole);
    StaysClean(whole, fraction, rest);
    AlreadyClean(s);
    DotSplits(whole, fraction + rest);
    assert s[|whole| + 1..] == fraction + rest;
    DotEnds(fraction, rest);
  }

  lemma StaysClean(whole: string, fraction: string, rest: string)
    requires B.AllDigits(whole) && B.AllDigits(fraction) && DigitsAndDots(rest)
    ensures DigitsAndDots(whole + "." + (fraction + rest))
  {
  }

  lemma {:induction false} AlreadyClean(s: string)
    requires DigitsAndDots(s)
    ensures Cleaned(s) == s
  {
    if s != [] {
      AlreadyClean(s[1..]);
    }
  }

  lemma {:induction false} DotEnds(d: string, rest: string)
    requires B.AllDigits(d) && (rest != "" ==> rest[0] == '.')
    ensures BeforeDot(d + rest) == d
  {
    if d == [] {
      assert d + rest == rest;
    } else {
      assert (d + rest)[1..] == d[1..] + rest;
      DotEnds(d[1..], rest);
    }
  }

  /** Rupees are grouped, a missing whole part is a zero, and the paise are shown exactly
      when the first two decimals are not both zero: two digits, the second a zero when it
      was not entered.  Further decimals and whatever follows a second dot are cut. */
  lemma MoneyIsDecided(whole: string, fraction: string, rest: string)
    requires B.AllDigits(whole) && B.AllDigits(fraction) && DigitsAndDots(rest)
    requires rest != "" ==> rest[0] == '.'
    ensures var rupees := Grouped(if whole == "" then "0" else whole);
            var first := if |fraction| > 0 then fraction[0] else '0';
            var second := if |fraction| > 1 then fraction[1] else '0';
            && FormatMoney(whole) == rupees
            && FormatMoney(whole + "." + (fraction + rest)) ==
               if first == '0' && second == '0' then rupees else rupees + "." + [first, second]
  {
    DottedParts(whole, fraction, rest);
    var d := if whole == "" then "0" else whole;
    DigitsStay(d);
    PaiseAreShown(d, fraction);
    PaiseAreShown(d, "");
  }

  lemma PaiseAreShown(digits: string, fraction: string)
    ensures var first := if |fraction| > 0 then fraction[0] else '0';
            var second := if |fraction| > 1 then fraction[1] else '0';
            Shown(digits, PaiseText(fraction)) ==
            if first == '0' && second == '0' then Grouped(digits) else Grouped(digits) + "." + [first, second]
  {
    var paise := PaiseText(fraction);
    if |fraction| >= 1 {
      assert paise == [fraction[0], if |fraction| > 1 then fraction[1] else '0'];
      assert (paise[0] != '0' || paise[1] != '0') <==> exists i :: 0 <= i < |paise| && paise[i] != '0';
    }
  }

  // ----- typing -----

  /** The typed text is the digits before the first dot, the dot if there is one, and the
      digits after it. */
  lemma {:induction false} StrippedIsDecided(raw: string)
    ensures var whole := BeforeDot(raw);
            Stripped(raw, false) ==
            OnlyDigits(whole) + if |whole| < |raw| then "." + OnlyDigits(raw[|whole| + 1..]) else ""
  {
    if raw == [] {
    } else if raw[0] == '.' {
      DigitsAfterTheDot(raw[1..]);
      assert raw[..0] == [];
    } else {
      StrippedIsDecided(raw[1..]);
      var whole, later := BeforeDot(raw), BeforeDot(raw[1..]);
      assert whole[1..] == later;
      if |whole| < |raw| {
        assert raw[|whole| + 1..] == raw[1..][|later| + 1..];
      }
      Regroup(if B.IsDigit(raw[0]) then [raw[0]] else [], OnlyDigits(later),
          if |whole| < |raw| then "." + OnlyDigits(raw[|whole| + 1..]) else "");
    }
  }

  lemma {:induction false} DigitsAfterTheDot(raw: string)
    ensures Stripped(raw, true) == OnlyDigits(raw)
  {
    if raw != [] {
      DigitsAfterTheDot(raw[1..]);
    }
  }

  /** The text before the first dot has none, and a dot follows it if the text has one. */
  lemma {:induction false} BeforeDotIsDecided(s: string)
    ensures BeforeDot(s) <= s && '.' !in BeforeDot(s)
    ensures |BeforeDot(s)| < |s| <==> '.' in s
    ensures '.' in s ==> s[|BeforeDot(s)|] == '.'
  {
    if s != [] && s[0] != '.' {
      BeforeDotIsDecided(s[1..]);
      assert s == [s[0]] + s[1..];
    }
  }
}
